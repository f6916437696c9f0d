/**
 * The lazy YouTube-id backfill (app/api/musix/ensure-youtube-id/route.ts):
 * when the newest song has no YouTube id yet, search YouTube for
 * "song - artist" and store the first hit on every row with the song's
 * Spotify id. The search service is an input.
 */
module YoutubeBackfill {
  import opened Wrappers
  import opened Text
  import opened SongStore

  /** A search hit; `id` is "" when the hit carries none. */
  datatype Video = Video(id: string)

  /** What `YouTube.search(query, { limit: 1 })` ends in. */
  datatype SearchReply = SearchThrew | Videos(hits: seq<Video>)

  /**
   * The search text: song name, " - ", artist, with the whitespace around
   * the whole removed and nothing else.
   */
  function YouTubeQuery(songName: string, artist: string): (q: string)
    ensures |q| <= |songName| + 3 + |artist|
    ensures q == [] || (!IsSpace(q[0]) && !IsSpace(q[|q| - 1]))
    ensures exists w1, w2 :: AllSpace(w1) && AllSpace(w2) && songName + " - " + artist == w1 + q + w2
  {
    var text := songName + " - " + artist;
    TrimSpec(text);
    var k := |text| - |TrimStart(text)|;
    var q := Trim(text);
    assert text == text[..k] + q + text[k + |q|..];
    q
  }

  /** `searchYouTubeVideo` on a reply: the id of the first hit, null when there is none or it is empty. */
  function SearchYouTubeVideo(reply: SearchReply): (id: Option<string>)
    ensures id.Some? <==> reply.Videos? && |reply.hits| > 0 && reply.hits[0].id != ""
    ensures id.Some? ==> id.value == reply.hits[0].id
  {
    match reply
    case SearchThrew => None
    case Videos(hits) => if |hits| > 0 && hits[0].id != "" then Some(hits[0].id) else None
  }

  /** The JSON answer of the endpoint: its status, `success` and the `youtubeId` it reports. */
  datatype Answer = Answer(status: int, success: bool, youtubeId: Option<string>)

  /** The answer, the query searched for (if any), and the rows afterwards. */
  datatype Backfill = Backfill(answer: Answer, searched: Option<string>, rows: seq<SongRow>)

  /**
   * `GET`: the decision chain over the newest archived song. `readFails` is a
   * store error on reading (which yields no songs), `readThrows` an
   * exception escaping the read (status 500), `search` the search service
   * and `updateAccepted` whether the store accepts the update.
   */
  function EnsureYoutubeIdSpec(
    rows: seq<SongRow>, readFails: bool, readThrows: bool,
    search: string -> SearchReply, updateAccepted: bool): (b: Backfill)
    ensures b.answer.status == 200 <==> !readThrows
    ensures b.answer.status != 200 ==> b.answer.status == 500 && !b.answer.success
    ensures b.rows != rows ==> b.searched.Some?
    ensures b.answer.youtubeId.Some? <==> b.answer.success
    ensures b.answer.success ==> Truthy(b.answer.youtubeId)
  {
    if readThrows then Backfill(Answer(500, false, None), None, rows)
    else
      var songs := ArchivedSongs(rows, readFails);
      if songs == [] then Backfill(Answer(200, false, None), None, rows)
      else
        var latest := songs[0];
        if Truthy(latest.youtubeId) then Backfill(Answer(200, true, latest.youtubeId), None, rows)
        else if !Truthy(latest.spotifyTrackId) then Backfill(Answer(200, false, None), None, rows)
        else
          var query := YouTubeQuery(latest.songName, latest.artist);
          match SearchYouTubeVideo(search(query))
          case None => Backfill(Answer(200, false, None), Some(query), rows)
          case Some(id) =>
            if updateAccepted then
              Backfill(Answer(200, true, Some(id)), Some(query), WithYoutubeId(rows, latest.spotifyTrackId.value, id))
            else Backfill(Answer(200, false, None), Some(query), rows)
  }

  /** The newest song of a successful read, when there is one. */
  function Latest(rows: seq<SongRow>, readFails: bool): Option<SongRow> {
    var songs := ArchivedSongs(rows, readFails);
    if songs == [] then None else Some(songs[0])
  }

  /** With no songs the answer is a failure, and nothing is searched or changed. */
  lemma {:induction false} NoSongsNoSearch(
    rows: seq<SongRow>, readFails: bool, search: string -> SearchReply, updateAccepted: bool)
    requires Latest(rows, readFails).None?
    ensures var b := EnsureYoutubeIdSpec(rows, readFails, false, search, updateAccepted);
      !b.answer.success && b.searched.None? && b.rows == rows
  {
  }

  /** A newest song that has a YouTube id is reported as it is; nothing is searched or changed. */
  lemma {:induction false} KnownIdReported(
    rows: seq<SongRow>, readFails: bool, search: string -> SearchReply, updateAccepted: bool)
    requires Latest(rows, readFails).Some? && Truthy(Latest(rows, readFails).value.youtubeId)
    ensures var b := EnsureYoutubeIdSpec(rows, readFails, false, search, updateAccepted);
      b.answer == Answer(200, true, Latest(rows, readFails).value.youtubeId) && b.searched.None? && b.rows == rows
  {
  }

  /** Without a Spotify id there is nothing to key the update by: a failure, and no search. */
  lemma {:induction false} NoSpotifyIdNoSearch(
    rows: seq<SongRow>, readFails: bool, search: string -> SearchReply, updateAccepted: bool)
    requires Latest(rows, readFails).Some?
    requires !Truthy(Latest(rows, readFails).value.youtubeId) && !Truthy(Latest(rows, readFails).value.spotifyTrackId)
    ensures var b := EnsureYoutubeIdSpec(rows, readFails, false, search, updateAccepted);
      !b.answer.success && b.searched.None? && b.rows == rows
  {
  }

  /**
   * Otherwise the song is searched for by "song - artist"; a search without
   * a hit changes nothing, and a hit is stored on the rows with the song's
   * Spotify id, the answer's success being the update's.
   */
  lemma {:induction false} SearchThenUpdate(
    rows: seq<SongRow>, readFails: bool, search: string -> SearchReply, updateAccepted: bool)
    requires Latest(rows, readFails).Some?
    requires !Truthy(Latest(rows, readFails).value.youtubeId) && Truthy(Latest(rows, readFails).value.spotifyTrackId)
    ensures var latest := Latest(rows, readFails).value;
      var query := YouTubeQuery(latest.songName, latest.artist);
      var b := EnsureYoutubeIdSpec(rows, readFails, false, search, updateAccepted);
      var hit := SearchYouTubeVideo(search(query));
      b.searched == Some(query) &&
      (hit.None? ==> !b.answer.success && b.rows == rows) &&
      (hit.Some? ==>
        b.answer.success == updateAccepted &&
        b.rows == (if updateAccepted then WithYoutubeId(rows, latest.spotifyTrackId.value, hit.value) else rows))
  {
  }

  /**
   * The backfill is idempotent: once it has succeeded, asking again (on a
   * successful read) reports the same id without searching or changing
   * anything.
   */
  lemma {:induction false} BackfillIdempotent(
    rows: seq<SongRow>, readFails: bool, search: string -> SearchReply, updateAccepted: bool,
    search2: string -> SearchReply, updateAccepted2: bool)
    requires EnsureYoutubeIdSpec(rows, readFails, false, search, updateAccepted).answer.success
    ensures var b := EnsureYoutubeIdSpec(rows, readFails, false, search, updateAccepted);
      var b2 := EnsureYoutubeIdSpec(b.rows, false, false, search2, updateAccepted2);
      b2.answer == b.answer && b2.searched.None? && b2.rows == b.rows
  {
    var b := EnsureYoutubeIdSpec(rows, readFails, false, search, updateAccepted);
    var songs := ArchivedSongs(rows, readFails);
    var latest := songs[0];
    assert !readFails;
    if !Truthy(latest.youtubeId) {
      var sid := latest.spotifyTrackId.value;
      var id := b.answer.youtubeId.value;
      SortCommutesWithYoutubeId(rows, sid, id);
      var after := ArchivedSongs(b.rows, false);
      assert after == WithYoutubeId(songs, sid, id);
      assert after[0] == latest.(youtubeId := Some(id));
    }
  }

  /** `GET` against the table: the decision chain, with the update performed in place. */
  method EnsureYoutubeId(
    songs: SongTable, readFails: bool, readThrows: bool,
    search: string -> SearchReply, updateAccepted: bool) returns (answer: Answer)
    modifies songs
    ensures var b := EnsureYoutubeIdSpec(old(songs.rows), readFails, readThrows, search, updateAccepted);
      answer == b.answer && songs.rows == b.rows
  {
    if readThrows {
      return Answer(500, false, None);
    }
    var archived := ArchivedSongs(songs.rows, readFails);
    if archived == [] {
      return Answer(200, false, None);
    }
    var latest := archived[0];
    if Truthy(latest.youtubeId) {
      return Answer(200, true, latest.youtubeId);
    }
    if !Truthy(latest.spotifyTrackId) {
      return Answer(200, false, None);
    }
    var youtubeId := SearchYouTubeVideo(search(YouTubeQuery(latest.songName, latest.artist)));
    if youtubeId.None? {
      return Answer(200, false, None);
    }
    var updated := songs.UpdateSongYoutubeId(latest.spotifyTrackId.value, youtubeId.value, updateAccepted);
    if updated {
      answer := Answer(200, true, youtubeId);
    } else {
      answer := Answer(200, false, None);
    }
  }
}
