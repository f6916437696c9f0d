/**
 * The YouTube playlist importer (app/musix/fetch_songs.py): read every
 * playlist page, read the stored songs once into two dictionaries and a
 * maximum week, fetch the uploader channel of every video in batches of
 * 50, then walk the playlist and insert each video that is new by id and by
 * name/artist under the next week. The YouTube API is an input; the song
 * table is the in-memory `SongTable`.
 */
module PlaylistImporter {
  import opened Wrappers
  import opened Text
  import opened Weeks
  import opened SongStore
  import opened WeekAssignment
  import opened TitleParsing

  // ---------------------------------------------------------------------------
  // Playlist pages (get_playlist_items)
  // ---------------------------------------------------------------------------

  /** A playlist item: `contentDetails.videoId` and `snippet.title`. */
  datatype Item = Item(videoId: string, title: string)

  /** One answer of `playlistItems().list`: its items (None when absent) and `nextPageToken`. */
  datatype ItemsPage = ItemsPage(items: Option<seq<Item>>, nextPageToken: Option<string>)

  /**
   * The pages the loop reads, in order: every page but the last links a
   * next one by a non-empty token, and the last links none.
   */
  predicate ItemChain(pages: seq<ItemsPage>) {
    |pages| >= 1 &&
    (forall i :: 0 <= i < |pages| - 1 ==> Truthy(pages[i].nextPageToken)) &&
    !Truthy(pages[|pages| - 1].nextPageToken)
  }

  /** The items of `pages`, page after page. */
  function ItemsOf(pages: seq<ItemsPage>): seq<Item>
    decreases |pages|
  {
    if pages == [] then []
    else
      var n := |pages| - 1;
      ItemsOf(pages[..n]) + pages[n].items.GetOr([])
  }

  /** Reading two runs of pages one after the other yields the items of both, in order. */
  lemma {:induction false} ItemsOfAppend(a: seq<ItemsPage>, b: seq<ItemsPage>)
    ensures ItemsOf(a + b) == ItemsOf(a) + ItemsOf(b)
    decreases |b|
  {
    if b == [] {
      assert a + b == a;
    } else {
      var n := |b| - 1;
      assert (a + b)[..|a| + n] == a + b[..n];
      ItemsOfAppend(a, b[..n]);
    }
  }

  /** `get_playlist_items`: extend the list with each page's items until a page links no next one. */
  method GetPlaylistItems(pages: seq<ItemsPage>) returns (items: seq<Item>)
    requires ItemChain(pages)
    ensures items == ItemsOf(pages)
  {
    items := [];
    var k := 0;
    while true
      invariant 0 <= k < |pages|
      invariant items == ItemsOf(pages[..k])
      decreases |pages| - k
    {
      var response := pages[k];
      assert pages[..k + 1][..k] == pages[..k];
      items := items + response.items.GetOr([]);
      if !Truthy(response.nextPageToken) {
        assert pages[..k + 1] == pages;
        return;
      }
      k := k + 1;
    }
  }

  // ---------------------------------------------------------------------------
  // Video details (get_video_details)
  // ---------------------------------------------------------------------------

  const BatchSize := 50

  /** A video resource of `videos().list`: its id and, when present, its channel title and title. */
  datatype Video = Video(id: string, channelTitle: Option<string>, title: Option<string>)

  /** The details kept per video; a missing channel title reads "unknown", a missing title "". */
  datatype Details = Details(channelTitle: string, title: string)

  function DetailsOf(v: Video): (d: Details)
    ensures v.channelTitle.None? ==> d.channelTitle == "unknown"
    ensures v.channelTitle.Some? ==> d.channelTitle == v.channelTitle.value
  {
    Details(v.channelTitle.GetOr("unknown"), v.title.GetOr(""))
  }

  /** The batches of at most 50 ids the ids are requested in, in order. */
  function Batches(ids: seq<string>): (bs: seq<seq<string>>)
    decreases |ids|
  {
    if ids == [] then []
    else if |ids| <= BatchSize then [ids]
    else [ids[..BatchSize]] + Batches(ids[BatchSize..])
  }

  function Flatten(bs: seq<seq<string>>): seq<string>
    decreases |bs|
  {
    if bs == [] then [] else bs[0] + Flatten(bs[1..])
  }

  /**
   * The batches cover every id once and in order; each holds between 1 and
   * 50 ids, and all but the last hold exactly 50.
   */
  lemma {:induction false} BatchesCover(ids: seq<string>)
    ensures Flatten(Batches(ids)) == ids
    ensures forall i :: 0 <= i < |Batches(ids)| ==> 1 <= |Batches(ids)[i]| <= BatchSize
    ensures forall i :: 0 <= i < |Batches(ids)| - 1 ==> |Batches(ids)[i]| == BatchSize
    decreases |ids|
  {
    if |ids| > BatchSize {
      var rest := ids[BatchSize..];
      BatchesCover(rest);
      var bs := Batches(ids);
      assert bs[1..] == Batches(rest);
      assert ids[..BatchSize] + rest == ids;
      forall i | 1 <= i < |bs| ensures bs[i] == Batches(rest)[i - 1] {
      }
    } else if ids != [] {
      var bs := Batches(ids);
      assert bs[1..] == [];
      assert ids + [] == ids;
    }
  }

  /** The dictionary after recording the videos of one response, later entries winning. */
  function Record(d: map<string, Details>, videos: seq<Video>): map<string, Details>
    decreases |videos|
  {
    if videos == [] then d
    else
      var n := |videos| - 1;
      Record(d, videos[..n])[videos[n].id := DetailsOf(videos[n])]
  }

  /** A video id of the response maps to the details of the last video with that id. */
  lemma {:induction false} RecordLastWins(d: map<string, Details>, videos: seq<Video>, j: nat)
    requires j < |videos|
    requires forall l :: j < l < |videos| ==> videos[l].id != videos[j].id
    ensures videos[j].id in Record(d, videos) && Record(d, videos)[videos[j].id] == DetailsOf(videos[j])
    decreases |videos|
  {
    var n := |videos| - 1;
    if j < n {
      assert videos[..n][j] == videos[j];
      forall l | j < l < n ensures videos[..n][l].id != videos[..n][j].id {
        assert videos[..n][l] == videos[l];
      }
      RecordLastWins(d, videos[..n], j);
    }
  }

  /** An id no video of the response has keeps what it had, and is present only if it was. */
  lemma {:induction false} RecordKeeps(d: map<string, Details>, videos: seq<Video>, id: string)
    requires forall j :: 0 <= j < |videos| ==> videos[j].id != id
    ensures id in Record(d, videos) <==> id in d
    ensures id in d ==> Record(d, videos)[id] == d[id]
    decreases |videos|
  {
    if videos != [] {
      var n := |videos| - 1;
      forall j | 0 <= j < n ensures videos[..n][j].id != id {
        assert videos[..n][j] == videos[j];
      }
      RecordKeeps(d, videos[..n], id);
    }
  }

  /** The dictionary after the responses to `batches`; `lookup` is the API. */
  function DetailsAfter(batches: seq<seq<string>>, lookup: seq<string> -> seq<Video>): map<string, Details>
    decreases |batches|
  {
    if batches == [] then map[]
    else
      var n := |batches| - 1;
      Record(DetailsAfter(batches[..n], lookup), lookup(batches[n]))
  }

  /**
   * `get_video_details`: request the ids in batches of 50 and record every
   * video of every response. The batches requested are returned too.
   */
  method GetVideoDetails(ids: seq<string>, lookup: seq<string> -> seq<Video>)
    returns (details: map<string, Details>, requested: seq<seq<string>>)
    ensures requested == Batches(ids)
    ensures details == DetailsAfter(requested, lookup)
  {
    details := map[];
    requested := [];
    var i := 0;
    while i < |ids|
      invariant 0 <= i <= |ids|
      invariant requested + Batches(ids[i..]) == Batches(ids)
      invariant details == DetailsAfter(requested, lookup)
      decreases |ids| - i
    {
      var end := if i + BatchSize <= |ids| then i + BatchSize else |ids|;
      var batch := ids[i..end];
      BatchStep(ids, i, end);
      var response := lookup(batch);
      ghost var before := details;
      for j := 0 to |response|
        invariant details == Record(before, response[..j])
      {
        RecordStep(before, response, j);
        var video := response[j];
        details := details[video.id := DetailsOf(video)];
      }
      assert response[..|response|] == response;
      DetailsAfterStep(requested, batch, lookup);
      AppendAssoc(requested, [batch], Batches(ids[end..]));
      requested := requested + [batch];
      i := end;
    }
    assert ids[i..] == [];
    assert requested + [] == requested;
  }

  lemma {:induction false} RecordStep(d: map<string, Details>, videos: seq<Video>, j: nat)
    requires j < |videos|
    ensures Record(d, videos[..j + 1]) == Record(d, videos[..j])[videos[j].id := DetailsOf(videos[j])]
  {
    assert videos[..j + 1][..j] == videos[..j];
  }

  lemma {:induction false} DetailsAfterStep(requested: seq<seq<string>>, batch: seq<string>, lookup: seq<string> -> seq<Video>)
    ensures DetailsAfter(requested + [batch], lookup) == Record(DetailsAfter(requested, lookup), lookup(batch))
  {
    assert (requested + [batch])[..|requested|] == requested;
  }

  lemma {:induction false} BatchStep(ids: seq<string>, i: nat, end: nat)
    requires i < |ids| && end == (if i + BatchSize <= |ids| then i + BatchSize else |ids|)
    ensures Batches(ids[i..]) == [ids[i..end]] + Batches(ids[end..])
  {
    var rest := ids[i..];
    if |rest| > BatchSize {
      assert rest[..BatchSize] == ids[i..end];
      assert rest[BatchSize..] == ids[end..];
    } else {
      assert end == |ids| && ids[end..] == [] && ids[i..end] == rest;
      assert Batches(ids[end..]) == [];
    }
  }

  /** The channel of a video as the loop reads it: "unknown" when no details were found. */
  function ChannelOf(videoId: string, details: map<string, Details>): string {
    if videoId in details then details[videoId].channelTitle else "unknown"
  }

  // ---------------------------------------------------------------------------
  // Stored songs (get_existing_songs)
  // ---------------------------------------------------------------------------

  /**
   * What the importer reads before its loop: rows by `youtube_id` (a row
   * without one is filed under None) and by normalised name/artist, every
   * later row overwriting an earlier one, and the largest week number.
   */
  datatype PyIndex = PyIndex(byYoutubeId: map<Option<string>, Entry>, byNameArtist: map<string, Entry>, maxWeek: nat)

  function PyEntry(r: SongRow): Entry {
    Entry(r.week, r.songName, r.artist, r.youtubeId)
  }

  function YoutubeKey(r: SongRow): Option<string> {
    r.youtubeId
  }

  predicate Always(r: SongRow) {
    true
  }

  function ImporterIndex(rows: seq<SongRow>): PyIndex {
    PyIndex(LastWins(rows, Always, YoutubeKey, PyEntry), LastWins(rows, Always, RowKey, PyEntry), MaxWeekOf(rows))
  }

  /** Every row is filed under its YouTube id... */
  lemma {:induction false} FiledById(rows: seq<SongRow>, i: nat)
    requires i < |rows|
    ensures rows[i].youtubeId in ImporterIndex(rows).byYoutubeId
  {
    LastWinsSpec(rows, Always, YoutubeKey, PyEntry);
    assert Always(rows[i]) && YoutubeKey(rows[i]) == rows[i].youtubeId;
  }

  /** ...and under its name/artist key. */
  lemma {:induction false} FiledByKey(rows: seq<SongRow>, i: nat)
    requires i < |rows|
    ensures RowKey(rows[i]) in ImporterIndex(rows).byNameArtist
  {
    LastWinsSpec(rows, Always, RowKey, PyEntry);
    assert Always(rows[i]);
  }

  /** A YouTube id maps to the last row that has it: rows are overwritten unconditionally. */
  lemma {:induction false} ImporterIndexLastById(rows: seq<SongRow>, i: nat)
    requires i < |rows|
    requires forall j :: i < j < |rows| ==> rows[j].youtubeId != rows[i].youtubeId
    ensures rows[i].youtubeId in ImporterIndex(rows).byYoutubeId
    ensures ImporterIndex(rows).byYoutubeId[rows[i].youtubeId] == PyEntry(rows[i])
  {
    LastWinsSpec(rows, Always, YoutubeKey, PyEntry);
    assert LastKept(rows, Always, YoutubeKey, i);
  }

  /** A name/artist key maps to the last row that has it. */
  lemma {:induction false} ImporterIndexLastByKey(rows: seq<SongRow>, i: nat)
    requires i < |rows|
    requires forall j :: i < j < |rows| ==> RowKey(rows[j]) != RowKey(rows[i])
    ensures RowKey(rows[i]) in ImporterIndex(rows).byNameArtist
    ensures ImporterIndex(rows).byNameArtist[RowKey(rows[i])] == PyEntry(rows[i])
  {
    LastWinsSpec(rows, Always, RowKey, PyEntry);
    assert LastKept(rows, Always, RowKey, i);
  }

  /** Appending rows keeps every YouTube id of the index... */
  lemma {:induction false} IdsGrow(rows: seq<SongRow>, extra: seq<SongRow>)
    ensures ImporterIndex(rows).byYoutubeId.Keys <= ImporterIndex(rows + extra).byYoutubeId.Keys
  {
    var all := rows + extra;
    LastWinsSpec(rows, Always, YoutubeKey, PyEntry);
    forall k | k in ImporterIndex(rows).byYoutubeId ensures k in ImporterIndex(all).byYoutubeId {
      var i :| 0 <= i < |rows| && Always(rows[i]) && YoutubeKey(rows[i]) == k;
      assert all[i] == rows[i];
      FiledById(all, i);
    }
  }

  /** ...and every name/artist key. */
  lemma {:induction false} KeysGrow(rows: seq<SongRow>, extra: seq<SongRow>)
    ensures ImporterIndex(rows).byNameArtist.Keys <= ImporterIndex(rows + extra).byNameArtist.Keys
  {
    var all := rows + extra;
    LastWinsSpec(rows, Always, RowKey, PyEntry);
    forall k | k in ImporterIndex(rows).byNameArtist ensures k in ImporterIndex(all).byNameArtist {
      var i :| 0 <= i < |rows| && Always(rows[i]) && RowKey(rows[i]) == k;
      assert all[i] == rows[i];
      FiledByKey(all, i);
    }
  }

  lemma {:induction false} ImporterIndexStep(rows: seq<SongRow>, i: nat)
    requires i < |rows|
    ensures var r := rows[i]; var prev := ImporterIndex(rows[..i]); var next := ImporterIndex(rows[..i + 1]);
      next.byYoutubeId == prev.byYoutubeId[r.youtubeId := PyEntry(r)] &&
      next.byNameArtist == prev.byNameArtist[NormalizedKey(r.songName, r.artist) := PyEntry(r)] &&
      next.maxWeek == Max(prev.maxWeek, WeekNumber(r.week))
  {
    var t := rows[..i + 1];
    assert t[..i] == rows[..i] && t[i] == rows[i];
  }

  /** `get_existing_songs`: one pass over the rows. */
  method GetExistingSongs(songs: SongTable) returns (idx: PyIndex)
    ensures idx == ImporterIndex(songs.rows)
  {
    var data := songs.rows;
    var songsById: map<Option<string>, Entry> := map[];
    var songsByNameArtist: map<string, Entry> := map[];
    var maxWeek: nat := 0;
    assert data[..0] == [];
    for i := 0 to |data|
      invariant PyIndex(songsById, songsByNameArtist, maxWeek) == ImporterIndex(data[..i])
    {
      var song := data[i];
      songsById := songsById[song.youtubeId := PyEntry(song)];
      var normalizedKey := NormalizedKey(song.songName, song.artist);
      songsByNameArtist := songsByNameArtist[normalizedKey := PyEntry(song)];
      var weekNum := WeekNumber(song.week);
      maxWeek := Max(maxWeek, weekNum);
      ImporterIndexStep(data, i);
    }
    assert data[..|data|] == data;
    idx := PyIndex(songsById, songsByNameArtist, maxWeek);
  }

  // ---------------------------------------------------------------------------
  // The loop of main
  // ---------------------------------------------------------------------------

  /**
   * What the loop does with one item: skip it when its video id is stored,
   * otherwise work out its song and artist and skip it when their key is
   * stored, otherwise insert it with its video id (and no Spotify id).
   */
  function ImportPlan(item: Item, details: map<string, Details>, idx: PyIndex): (p: Plan)
    ensures p.SkipById? <==> Some(item.videoId) in idx.byYoutubeId
    ensures !p.SkipById? ==>
      var n := NamesOf(item.title, ChannelOf(item.videoId, details));
      (p.SkipByKey? <==> NormalizedKey(n.songName, n.artist) in idx.byNameArtist) &&
      (p.Insert? ==> p == Insert(n.songName, n.artist, Some(item.videoId), None))
  {
    if Some(item.videoId) in idx.byYoutubeId then SkipById(item.videoId)
    else
      var n := NamesOf(item.title, ChannelOf(item.videoId, details));
      var key := NormalizedKey(n.songName, n.artist);
      if key in idx.byNameArtist then SkipByKey(idx.byNameArtist[key])
      else Insert(n.songName, n.artist, Some(item.videoId), None)
  }

  /** The plans of the items, in playlist order, against the same dictionaries. */
  function ImportPlans(items: seq<Item>, details: map<string, Details>, idx: PyIndex): (plans: seq<Plan>)
    ensures |plans| == |items|
  {
    PlanAll(items, item => ImportPlan(item, details, idx))
  }

  /** Each item is planned on its own: the plan at position `i` depends only on the item there and the dictionaries. */
  lemma {:induction false} ImportPlansAt(items: seq<Item>, details: map<string, Details>, idx: PyIndex, i: nat)
    requires i < |items|
    ensures ImportPlans(items, details, idx)[i] == ImportPlan(items[i], details, idx)
  {
    PlanAllAt(items, item => ImportPlan(item, details, idx), i);
  }

  function VideoIds(items: seq<Item>): (ids: seq<string>)
    ensures |ids| == |items|
    ensures forall i :: 0 <= i < |items| ==> ids[i] == items[i].videoId
  {
    seq(|items|, i requires 0 <= i < |items| => items[i].videoId)
  }

  /**
   * One run of the importer over the stored `rows`: `lookup` answers the
   * video-details requests, and `failures` lists the positions whose insert
   * the store rejects. The counter starts one past the stored maximum.
   */
  function ImportRun(rows: seq<SongRow>, pages: seq<ItemsPage>, lookup: seq<string> -> seq<Video>, failures: set<nat>): Run {
    var items := ItemsOf(pages);
    RunOver(rows, items, DetailsAfter(Batches(VideoIds(items)), lookup), failures)
  }

  /** The loop over `items` against the dictionaries of the stored `rows`, the counter starting one past their maximum. */
  function RunOver(rows: seq<SongRow>, items: seq<Item>, details: map<string, Details>, failures: set<nat>): Run {
    RunWith(items, details, ImporterIndex(rows), MaxWeekOf(rows) + 1, failures)
  }

  /** The loop over `items` against fixed details and dictionaries, the counter starting at `week0`. */
  function RunWith(items: seq<Item>, details: map<string, Details>, idx: PyIndex, week0: nat, failures: set<nat>): Run {
    Assign(ImportPlans(items, details, idx), failures, week0, WeekLabel)
  }

  /** `max_week` is the maximum the dictionaries were built with. */
  lemma {:induction false} IndexMaxWeek(rows: seq<SongRow>, idx: PyIndex)
    requires idx == ImporterIndex(rows)
    ensures idx.maxWeek == MaxWeekOf(rows)
  {
  }

  lemma {:induction false} RunOverUnfold(rows: seq<SongRow>, items: seq<Item>, details: map<string, Details>, failures: set<nat>)
    ensures RunOver(rows, items, details, failures) == RunWith(items, details, ImporterIndex(rows), MaxWeekOf(rows) + 1, failures)
  {
  }

  /** The rows the loop inserts are labelled "week NN" from `week0` on, and carry no Spotify id. */
  lemma {:induction false} RunWithWeeks(items: seq<Item>, details: map<string, Details>, idx: PyIndex, week0: nat, failures: set<nat>, k: nat)
    requires k < |RunWith(items, details, idx, week0, failures).inserted|
    ensures RunWith(items, details, idx, week0, failures).inserted[k].week == WeekLabel(week0 + k)
    ensures RunWith(items, details, idx, week0, failures).inserted[k].spotifyTrackId.None?
  {
    var plans := ImportPlans(items, details, idx);
    var i := InsertedFrom(plans, failures, week0, WeekLabel, k);
    ImportPlansAt(items, details, idx, i);
  }

  /**
   * The rows the importer inserts are labelled "week NN" from the stored
   * maximum plus one on, and carry no Spotify id.
   */
  lemma {:induction false} ImportedWeeks(rows: seq<SongRow>, items: seq<Item>, details: map<string, Details>, failures: set<nat>, k: nat)
    requires k < |RunOver(rows, items, details, failures).inserted|
    ensures RunOver(rows, items, details, failures).inserted[k].week == WeekLabel(MaxWeekOf(rows) + 1 + k)
    ensures RunOver(rows, items, details, failures).inserted[k].spotifyTrackId.None?
  {
    RunOverUnfold(rows, items, details, failures);
    RunWithWeeks(items, details, ImporterIndex(rows), MaxWeekOf(rows) + 1, failures, k);
  }

  /** When no insert fails, an item planned as an insert is stored under its video id by some inserted row `k`. */
  lemma {:induction false} InsertedItem(items: seq<Item>, details: map<string, Details>, idx: PyIndex, week0: nat, i: nat)
    returns (k: nat)
    requires i < |items| && ImportPlan(items[i], details, idx).Insert?
    ensures k < |RunWith(items, details, idx, week0, {}).inserted|
    ensures RunWith(items, details, idx, week0, {}).inserted[k].youtubeId == Some(items[i].videoId)
  {
    var plans := ImportPlans(items, details, idx);
    ImportPlansAt(items, details, idx, i);
    AcceptedContains(plans, {}, i);
    var acc := Accepted(plans, {});
    k :| 0 <= k < |acc| && acc[k] == plans[i];
    AssignInserted(plans, {}, week0, WeekLabel, k);
  }

  /**
   * After a run in which no insert failed, every item is known to the
   * dictionaries built from the rows: by its video id if it was skipped by
   * id or inserted, by its key if it was skipped by key.
   */
  lemma {:induction false} KnownAfterRun(rows: seq<SongRow>, items: seq<Item>, details: map<string, Details>, i: nat)
    requires i < |items|
    ensures var rows2 := rows + RunOver(rows, items, details, {}).inserted;
      !ImportPlan(items[i], details, ImporterIndex(rows2)).Insert?
  {
    var inserted := RunOver(rows, items, details, {}).inserted;
    if ImportPlan(items[i], details, ImporterIndex(rows)).Insert? {
      InsertedIsFiled(rows, items, details, i);
    } else {
      IdsGrow(rows, inserted);
      KeysGrow(rows, inserted);
      SkipsPersist(items[i], details, ImporterIndex(rows), ImporterIndex(rows + inserted));
    }
  }

  /** When no insert fails, an item planned as an insert ends up filed under its video id. */
  lemma {:induction false} InsertedIsFiled(rows: seq<SongRow>, items: seq<Item>, details: map<string, Details>, i: nat)
    requires i < |items| && ImportPlan(items[i], details, ImporterIndex(rows)).Insert?
    ensures Some(items[i].videoId) in ImporterIndex(rows + RunOver(rows, items, details, {}).inserted).byYoutubeId
  {
    var inserted := RunOver(rows, items, details, {}).inserted;
    var rows2 := rows + inserted;
    RunOverUnfold(rows, items, details, {});
    var k := InsertedItem(items, details, ImporterIndex(rows), MaxWeekOf(rows) + 1, i);
    assert inserted[k].youtubeId == Some(items[i].videoId);
    assert rows2[|rows| + k] == inserted[k];
    FiledById(rows2, |rows| + k);
    assert Some(items[i].videoId) in ImporterIndex(rows2).byYoutubeId;
  }

  /** An item that is skipped against some dictionaries is still skipped against larger ones. */
  lemma {:induction false} SkipsPersist(item: Item, details: map<string, Details>, idx1: PyIndex, idx2: PyIndex)
    requires idx1.byYoutubeId.Keys <= idx2.byYoutubeId.Keys && idx1.byNameArtist.Keys <= idx2.byNameArtist.Keys
    requires !ImportPlan(item, details, idx1).Insert?
    ensures !ImportPlan(item, details, idx2).Insert?
  {
  }

  /** A loop in which every item is known to the dictionaries inserts nothing. */
  lemma {:induction false} AllKnownInsertNothing(items: seq<Item>, details: map<string, Details>, idx: PyIndex, week0: nat, failures: set<nat>)
    requires forall i :: 0 <= i < |items| ==> !ImportPlan(items[i], details, idx).Insert?
    ensures RunWith(items, details, idx, week0, failures).inserted == []
  {
    var plans := ImportPlans(items, details, idx);
    forall i | 0 <= i < |plans| ensures !plans[i].Insert? {
      ImportPlansAt(items, details, idx, i);
    }
    AllSkipsInsertNothing(plans, failures, week0, WeekLabel);
  }

  /**
   * Running the importer again over the same playlist, after a run in which
   * no insert failed, inserts nothing.
   */
  lemma {:induction false} SecondImportAddsNothing(rows: seq<SongRow>, items: seq<Item>, details: map<string, Details>, failures: set<nat>)
    ensures var rows2 := rows + RunOver(rows, items, details, {}).inserted;
      RunOver(rows2, items, details, failures).inserted == []
  {
    var rows2 := rows + RunOver(rows, items, details, {}).inserted;
    forall i | 0 <= i < |items| ensures !ImportPlan(items[i], details, ImporterIndex(rows2)).Insert? {
      KnownAfterRun(rows, items, details, i);
    }
    RunOverUnfold(rows2, items, details, failures);
    AllKnownInsertNothing(items, details, ImporterIndex(rows2), MaxWeekOf(rows2) + 1, failures);
  }

  /** `add_song_to_db`: insert the row with the video id as YouTube id; `accepted` is the store's verdict. */
  method AddSongToDb(songs: SongTable, week: string, songName: string, artist: string, youtubeId: string, accepted: bool)
    returns (ok: bool)
    modifies songs
    ensures ok == accepted
    ensures ok ==> songs.rows == old(songs.rows) + [SongRow(week, songName, artist, Some(youtubeId), None)]
    ensures !ok ==> songs.rows == old(songs.rows)
  {
    if accepted {
      songs.rows := songs.rows + [SongRow(week, songName, artist, Some(youtubeId), None)];
    }
    ok := accepted;
  }

  /** `main`: read the playlist, the stored songs and the video details, then walk the items. */
  method ImportPlaylist(songs: SongTable, pages: seq<ItemsPage>, lookup: seq<string> -> seq<Video>, failures: set<nat>)
    returns (log: seq<Outcome>, newSongsCount: nat)
    requires ItemChain(pages)
    modifies songs
    ensures var run := ImportRun(old(songs.rows), pages, lookup, failures);
      log == run.log && newSongsCount == |run.inserted| && songs.rows == old(songs.rows) + run.inserted
  {
    var playlistItems := GetPlaylistItems(pages);
    var idx := GetExistingSongs(songs);
    var videoIds := VideoIds(playlistItems);
    var videoDetails, _ := GetVideoDetails(videoIds, lookup);
    IndexMaxWeek(songs.rows, idx);
    var newWeek: nat := idx.maxWeek + 1;
    ImportRunIsLoop(songs.rows, pages, lookup, failures, playlistItems, videoDetails, idx, newWeek);
    ghost var plans := ImportPlans(playlistItems, videoDetails, idx);
    ImportPlansAll(playlistItems, videoDetails, idx);
    log, newSongsCount := AddNewItems(songs, playlistItems, videoDetails, idx, newWeek, failures, plans);
  }

  /**
   * The run of the importer, once its reads are done, is the loop over the
   * items against the dictionaries read, from one past their maximum.
   */
  lemma {:induction false} ImportRunIsLoop(
    rows: seq<SongRow>, pages: seq<ItemsPage>, lookup: seq<string> -> seq<Video>, failures: set<nat>,
    items: seq<Item>, details: map<string, Details>, idx: PyIndex, week0: nat)
    requires items == ItemsOf(pages) && details == DetailsAfter(Batches(VideoIds(items)), lookup)
    requires idx == ImporterIndex(rows) && week0 == MaxWeekOf(rows) + 1
    ensures ImportRun(rows, pages, lookup, failures) == Assign(ImportPlans(items, details, idx), failures, week0, WeekLabel)
  {
    RunOverUnfold(rows, items, details, failures);
    RunWithUnfold(items, details, idx, week0, failures);
  }

  lemma {:induction false} RunWithUnfold(items: seq<Item>, details: map<string, Details>, idx: PyIndex, week0: nat, failures: set<nat>)
    ensures RunWith(items, details, idx, week0, failures) == Assign(ImportPlans(items, details, idx), failures, week0, WeekLabel)
  {
  }

  /** Every item's plan, stated with the trigger the loop of `main` consumes. */
  lemma {:induction false} ImportPlansAll(items: seq<Item>, details: map<string, Details>, idx: PyIndex)
    ensures forall j {:trigger ImportPlan(items[j], details, idx)} :: 0 <= j < |items| ==>
      ImportPlan(items[j], details, idx) == ImportPlans(items, details, idx)[j]
  {
    forall j | 0 <= j < |items|
      ensures ImportPlan(items[j], details, idx) == ImportPlans(items, details, idx)[j]
    {
      ImportPlansAt(items, details, idx, j);
    }
  }

  /**
   * One iteration of the loop of `main`, on the item at position `i` with
   * the counter at `newWeek`: skip the item when its video id or key is
   * stored, otherwise work out its song and artist and insert it under
   * `newWeek`; `added` reports whether the counter advances.
   */
  method ImportItem(
    songs: SongTable, item: Item, details: map<string, Details>, idx: PyIndex, failures: set<nat>, i: nat, newWeek: nat,
    ghost plan: Plan)
    returns (outcome: Outcome, added: bool)
    requires plan == ImportPlan(item, details, idx)
    modifies songs
    ensures var s := Step(Run([], [], newWeek), plan, i, failures, WeekLabel);
      s.log == [outcome] && songs.rows == old(songs.rows) + s.inserted && s.nextWeek == newWeek + (if added then 1 else 0)
  {
    added := false;
    var videoId := item.videoId;
    if Some(videoId) in idx.byYoutubeId {
      assert plan == SkipById(videoId);
      return SkippedById(videoId), false;
    }
    var actualChannel := ChannelOf(videoId, details);
    var names := NamesOf(item.title, actualChannel);
    var normalizedKey := NormalizedKey(names.songName, names.artist);
    if normalizedKey in idx.byNameArtist {
      assert plan == SkipByKey(idx.byNameArtist[normalizedKey]);
      return SkippedByKey(idx.byNameArtist[normalizedKey]), false;
    }
    assert plan == Insert(names.songName, names.artist, Some(videoId), None);
    var weekStr := WeekLabel(newWeek);
    added := AddSongToDb(songs, weekStr, names.songName, names.artist, videoId, i !in failures);
    outcome := if added then Added(weekStr) else AddFailed;
  }

  /**
   * The loop of `main`: the items in playlist order, the week counter
   * advancing only when an insert succeeds. The dictionaries are not
   * updated inside the loop.
   */
  method AddNewItems(
    songs: SongTable, items: seq<Item>, details: map<string, Details>, idx: PyIndex, week0: nat, failures: set<nat>,
    ghost plans: seq<Plan>)
    returns (log: seq<Outcome>, newSongsCount: nat)
    requires |plans| == |items|
    requires forall j {:trigger ImportPlan(items[j], details, idx)} :: 0 <= j < |items| ==> ImportPlan(items[j], details, idx) == plans[j]
    modifies songs
    ensures var run := Assign(plans, failures, week0, WeekLabel);
      log == run.log && newSongsCount == |run.inserted| && songs.rows == old(songs.rows) + run.inserted
  {
    ghost var rows0 := songs.rows;
    log := [];
    newSongsCount := 0;
    var newWeek: nat := week0;
    ghost var run := Run([], [], week0);
    for i := 0 to |items|
      invariant run == Assign(plans[..i], failures, week0, WeekLabel)
      invariant log == run.log && newWeek == run.nextWeek
      invariant songs.rows == rows0 + run.inserted && newSongsCount == |run.inserted|
    {
      var outcome, added := ImportItem(songs, items[i], details, idx, failures, i, newWeek, plans[i]);
      log := log + [outcome];
      if added {
        newSongsCount := newSongsCount + 1;
        newWeek := newWeek + 1;
      }
      ghost var s := Step(Run([], [], run.nextWeek), plans[i], i, failures, WeekLabel);
      LoopStep(plans, failures, week0, i, run);
      AppendAssoc(rows0, run.inserted, s.inserted);
      run := Run(run.log + s.log, run.inserted + s.inserted, s.nextWeek);
    }
    assert plans[..|items|] == plans;
  }

  /** One more item: the loop over `plans[..i + 1]` extends the loop over `plans[..i]` by the step on `plans[i]` alone. */
  lemma {:induction false} LoopStep(plans: seq<Plan>, failures: set<nat>, week0: nat, i: nat, run: Run)
    requires i < |plans| && run == Assign(plans[..i], failures, week0, WeekLabel)
    ensures var s := Step(Run([], [], run.nextWeek), plans[i], i, failures, WeekLabel);
      Assign(plans[..i + 1], failures, week0, WeekLabel) == Run(run.log + s.log, run.inserted + s.inserted, s.nextWeek)
  {
    StepAppends(run, plans[i], i, failures, WeekLabel);
    AssignStep(plans, failures, week0, WeekLabel, i);
  }

}
