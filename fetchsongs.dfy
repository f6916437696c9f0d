/**
 * The playlist sync endpoint (app/api/musix/fetch-songs/route.ts): a
 * fixed-window rate limiter in front of a job that copies new tracks of a
 * Spotify playlist into the songs table, numbering them as consecutive
 * weeks after the largest week already stored.
 *
 * The Spotify token exchange and the playlist pages are inputs (their HTTP
 * statuses and bodies), the store's answers are inputs, and every reading
 * of the clock is an input.
 */
module FetchSongs {
  import opened Wrappers
  import opened Text
  import opened Weeks
  import opened SongStore
  import opened RateLimitStore
  import opened WeekAssignment

  const MaxExecutions := 50
  const WindowHours := 24
  const WindowMs := WindowHours * MsPerHour
  const DefaultPlaylistId := "2vKyMZ7DVsdjn8YQ7iCgJP"

  // ---------------------------------------------------------------------------
  // The rate limiter
  // ---------------------------------------------------------------------------

  /** `cleanOldExecutions`: the timestamps less than 24 hours before `now`, in their original order. */
  function CleanOldExecutions(executions: seq<int>, now: int): (r: seq<int>)
    ensures |r| <= |executions|
    ensures forall t :: t in r <==> t in executions && now - t < WindowMs
    decreases |executions|
  {
    if executions == [] then []
    else (if now - executions[0] < WindowMs then [executions[0]] else []) + CleanOldExecutions(executions[1..], now)
  }

  /** The filter keeps the order: filtering `a + b` filters `a`, then `b`. */
  lemma {:induction false} CleanOldExecutionsAppend(a: seq<int>, b: seq<int>, now: int)
    ensures CleanOldExecutions(a + b, now) == CleanOldExecutions(a, now) + CleanOldExecutions(b, now)
    decreases |a|
  {
    if a == [] {
      assert a + b == b;
    } else {
      assert (a + b)[0] == a[0] && (a + b)[1..] == a[1..] + b;
      CleanOldExecutionsAppend(a[1..], b, now);
    }
  }

  /** The number of executions the filter keeps depends on the timestamps, not on their order. */
  lemma {:induction false} CleanOldCountIgnoresOrder(a: seq<int>, b: seq<int>, now: int)
    requires multiset(a) == multiset(b)
    ensures |CleanOldExecutions(a, now)| == |CleanOldExecutions(b, now)|
    decreases |a|
  {
    if a != [] {
      var x := a[0];
      assert x in multiset(b);
      var k :| 0 <= k < |b| && b[k] == x;
      var rest := b[..k] + b[k + 1..];
      assert b == b[..k] + [x] + b[k + 1..];
      assert a == [x] + a[1..];
      assert multiset(a[1..]) == multiset(rest) by {
        assert multiset(b) == multiset(b[..k]) + multiset{x} + multiset(b[k + 1..]);
        assert multiset(rest) == multiset(b) - multiset{x};
        assert multiset(a[1..]) == multiset(a) - multiset{x};
      }
      CleanOldCountIgnoresOrder(a[1..], rest, now);
      CleanOldExecutionsAppend(b[..k], b[k + 1..], now);
      CleanOldExecutionsAppend(b[..k] + [x], b[k + 1..], now);
      CleanOldExecutionsAppend(b[..k], [x], now);
      assert [x] + a[1..] == a;
    }
  }

  /**
   * The store's delete, done first at time `cleanAt`, removes only what the
   * filter at a later time `filterAt` would drop anyway, so it never changes
   * the count the limiter sees.
   */
  lemma {:induction false} DeleteThenFilter(ts: seq<int>, cleanAt: int, filterAt: int)
    requires cleanAt <= filterAt
    ensures CleanOldExecutions(KeepFrom(ts, cleanAt - WindowHours * MsPerHour), filterAt) ==
      CleanOldExecutions(ts, filterAt)
    decreases |ts|
  {
    if ts != [] {
      var n := |ts| - 1;
      var x := ts[n];
      var cutoff := cleanAt - WindowHours * MsPerHour;
      DeleteThenFilter(ts[..n], cleanAt, filterAt);
      assert ts == ts[..n] + [x];
      CleanOldExecutionsAppend(ts[..n], [x], filterAt);
      CleanOldExecutionsAppend(KeepFrom(ts[..n], cutoff), if x >= cutoff then [x] else [], filterAt);
    }
  }

  /** The limiter's answer: `allowed` and how many more runs the window admits. */
  datatype RateDecision = RateDecision(allowed: bool, remaining: int)

  /** The decision `checkRateLimit` takes on the number of executions in the window. */
  function RateDecide(count: nat): (d: RateDecision)
    ensures !d.allowed <==> count >= MaxExecutions
    ensures !d.allowed ==> d.remaining == 0
    ensures d.allowed ==> d.remaining == MaxExecutions - count && 1 <= d.remaining <= MaxExecutions
  {
    if count >= MaxExecutions then RateDecision(false, 0)
    else RateDecision(true, MaxExecutions - count)
  }

  /** The clock readings of one request, in milliseconds. */
  datatype Clock = Clock(cleanAt: int, filterAt: int, recordAt: int)

  /** The answers of the rate-limit store during one request. */
  datatype RateStore = RateStore(cleanOk: bool, readFails: bool, recordOk: bool)

  /** The table after `cleanOldRateLimitExecutions(24)`. */
  function AfterClean(ts: seq<int>, clock: Clock, store: RateStore): seq<int> {
    if store.cleanOk then KeepFrom(ts, clock.cleanAt - WindowHours * MsPerHour) else ts
  }

  /** The count `checkRateLimit` compares with the limit. */
  function WindowCount(ts: seq<int>, clock: Clock, store: RateStore): nat {
    if store.readFails then 0 else |CleanOldExecutions(AfterClean(ts, clock, store), clock.filterAt)|
  }

  /**
   * The limiter counts exactly the recorded runs less than 24 hours old
   * when the clock runs forward, and admits every run when its read fails.
   */
  lemma {:induction false} WindowCountSpec(ts: seq<int>, clock: Clock, store: RateStore)
    requires clock.cleanAt <= clock.filterAt
    ensures store.readFails ==> RateDecide(WindowCount(ts, clock, store)).allowed
    ensures !store.readFails ==> WindowCount(ts, clock, store) == |CleanOldExecutions(ts, clock.filterAt)|
  {
    if store.cleanOk {
      DeleteThenFilter(ts, clock.cleanAt, clock.filterAt);
    }
  }

  /** A run recorded at time `now` is counted by a check at the same time. */
  lemma {:induction false} RecordedRunCounts(ts: seq<int>, now: int)
    ensures |CleanOldExecutions(ts + [now], now)| == |CleanOldExecutions(ts, now)| + 1
  {
    CleanOldExecutionsAppend(ts, [now], now);
  }

  /**
   * `checkRateLimit`: delete the old rows, read the rest, drop those older
   * than the window, and decide on the count.
   */
  method CheckRateLimit(limits: RateLimitTable, clock: Clock, store: RateStore) returns (d: RateDecision)
    modifies limits
    ensures limits.executedAt == AfterClean(old(limits.executedAt), clock, store)
    ensures d == RateDecide(WindowCount(old(limits.executedAt), clock, store))
  {
    limits.CleanOld(WindowHours, clock.cleanAt, store.cleanOk);
    var executions := limits.GetExecutions(store.readFails);
    var cleanedExecutions := CleanOldExecutions(executions, clock.filterAt);
    if !store.readFails {
      CleanOldCountIgnoresOrder(executions, limits.executedAt, clock.filterAt);
    }
    if |cleanedExecutions| >= MaxExecutions {
      return RateDecision(false, 0);
    }
    return RateDecision(true, MaxExecutions - |cleanedExecutions|);
  }

  // ---------------------------------------------------------------------------
  // The playlist
  // ---------------------------------------------------------------------------

  /**
   * A playlist track: its Spotify id (`null` for a local file), its name
   * and the names of its artists.
   */
  datatype Track = Track(id: Option<string>, name: string, artists: seq<string>)

  /**
   * One page of the playlist as the API answered it: a non-OK status, or
   * the page's items (absent when the body has none; an item whose track
   * was removed is `None`) and whether a next page is linked.
   */
  datatype PageResponse =
    | PageFailed(status: int)
    | Page(items: Option<seq<Option<Track>>>, hasNext: bool)

  /**
   * The pages the loop fetches, in order: every page but the last is an OK
   * page linking a next one, and the last one failed or links none.
   */
  predicate PageChain(pages: seq<PageResponse>) {
    |pages| >= 1 &&
    (forall i :: 0 <= i < |pages| - 1 ==> pages[i].Page? && pages[i].hasNext) &&
    (pages[|pages| - 1].PageFailed? || !pages[|pages| - 1].hasNext)
  }

  /** `(data.items || []).filter(item => item.track !== null)`. */
  function ValidTracks(items: Option<seq<Option<Track>>>): (r: seq<Track>)
    ensures |r| <= |items.GetOr([])|
  {
    NonNull(items.GetOr([]))
  }

  function NonNull(items: seq<Option<Track>>): (r: seq<Track>)
    ensures |r| <= |items|
    decreases |items|
  {
    if items == [] then []
    else
      var n := |items| - 1;
      NonNull(items[..n]) + (match items[n] case Some(t) => [t] case None => [])
  }

  /**
   * The filter keeps exactly the tracks that were not removed, each as
   * often as the page lists it.
   */
  lemma {:induction false} NonNullMembers(items: seq<Option<Track>>)
    ensures forall t :: t in NonNull(items) <==> Some(t) in items
    ensures forall t :: multiset(NonNull(items))[t] == multiset(items)[Some(t)]
    decreases |items|
  {
    if items != [] {
      var n := |items| - 1;
      NonNullMembers(items[..n]);
      assert items == items[..n] + [items[n]];
      assert multiset(items) == multiset(items[..n]) + multiset{items[n]};
      var last: seq<Track> := match items[n] case Some(t) => [t] case None => [];
      assert multiset(NonNull(items)) == multiset(NonNull(items[..n])) + multiset(last);
    }
  }

  lemma {:induction false} NonNullHas(items: seq<Option<Track>>)
    ensures forall t :: t in NonNull(items) <==> Some(t) in items
  {
    NonNullMembers(items);
  }

  /** The filter keeps the order of the page: filtering `a + b` filters `a`, then `b`. */
  lemma {:induction false} NonNullAppend(a: seq<Option<Track>>, b: seq<Option<Track>>)
    ensures NonNull(a + b) == NonNull(a) + NonNull(b)
    decreases |b|
  {
    if b == [] {
      assert a + b == a;
    } else {
      var n := |b| - 1;
      NonNullAppend(a, b[..n]);
      assert (a + b)[..|a + b| - 1] == a + b[..n];
      assert (a + b)[|a + b| - 1] == b[n];
    }
  }

  /** The tracks one response contributes: those of an OK page, none of a failed one. */
  function PageTracks(page: PageResponse): seq<Track> {
    if page.Page? then ValidTracks(page.items) else []
  }

  /** The tracks of the OK pages among `pages`, page after page. */
  function Collected(pages: seq<PageResponse>): (r: seq<Track>)
    decreases |pages|
  {
    if pages == [] then []
    else
      var n := |pages| - 1;
      Collected(pages[..n]) + PageTracks(pages[n])
  }

  lemma {:induction false} CollectedAppend(a: seq<PageResponse>, b: seq<PageResponse>)
    ensures Collected(a + b) == Collected(a) + Collected(b)
    decreases |b|
  {
    if b == [] {
      assert a + b == a;
    } else {
      var n := |b| - 1;
      var ab := a + b;
      CollectedAppend(a, b[..n]);
      assert ab[..|ab| - 1] == a + b[..n];
      assert ab[|ab| - 1] == b[n];
      CollectedLast(ab);
      CollectedLast(b);
      AppendAssoc(Collected(a), Collected(b[..n]), PageTracks(b[n]));
    }
  }

  lemma CollectedLast(pages: seq<PageResponse>)
    requires pages != []
    ensures Collected(pages) == Collected(pages[..|pages| - 1]) + PageTracks(pages[|pages| - 1])
  {
  }

  /** The tracks of page `k` sit, in their order, between those of the pages before it and those after it. */
  lemma {:induction false} CollectedAt(pages: seq<PageResponse>, k: nat)
    requires k < |pages|
    ensures Collected(pages) == Collected(pages[..k]) + PageTracks(pages[k]) + Collected(pages[k + 1..])
  {
    var before, page, after := pages[..k], [pages[k]], pages[k + 1..];
    assert pages == before + (page + after);
    CollectedAppend(before, page + after);
    CollectedAppend(page, after);
    CollectedLast(page);
    assert page[..0] == [];
    assert Collected(page) == PageTracks(pages[k]);
    AppendAssoc(Collected(before), PageTracks(pages[k]), Collected(after));
  }

  /**
   * A collected track is a non-removed item of some OK page, and every such
   * item is collected; the pages' tracks follow one another in page order.
   */
  lemma {:induction false} CollectedMembers(pages: seq<PageResponse>)
    ensures forall t :: t in Collected(pages) <==>
      exists i :: 0 <= i < |pages| && pages[i].Page? && Some(t) in pages[i].items.GetOr([])
    ensures forall k :: 0 <= k < |pages| ==>
      Collected(pages) == Collected(pages[..k]) + PageTracks(pages[k]) + Collected(pages[k + 1..])
  {
    CollectedHas(pages);
    forall k | 0 <= k < |pages|
      ensures Collected(pages) == Collected(pages[..k]) + PageTracks(pages[k]) + Collected(pages[k + 1..])
    {
      CollectedAt(pages, k);
    }
  }

  lemma {:induction false} CollectedHas(pages: seq<PageResponse>)
    ensures forall t :: t in Collected(pages) <==>
      exists i :: 0 <= i < |pages| && pages[i].Page? && Some(t) in pages[i].items.GetOr([])
    decreases |pages|
  {
    if pages != [] {
      var n := |pages| - 1;
      CollectedHas(pages[..n]);
      CollectedLast(pages);
      if pages[n].Page? {
        NonNullHas(pages[n].items.GetOr([]));
      }
      forall t ensures t in Collected(pages) <==>
        exists i :: 0 <= i < |pages| && pages[i].Page? && Some(t) in pages[i].items.GetOr([])
      {
        if exists i :: 0 <= i < |pages| && pages[i].Page? && Some(t) in pages[i].items.GetOr([]) {
          var i :| 0 <= i < |pages| && pages[i].Page? && Some(t) in pages[i].items.GetOr([]);
          if i < n {
            assert pages[..n][i] == pages[i];
          }
        }
        if t in Collected(pages[..n]) {
          var i :| 0 <= i < n && pages[..n][i].Page? && Some(t) in pages[..n][i].items.GetOr([]);
          assert pages[i] == pages[..n][i];
        }
      }
    }
  }

  /**
   * What `getPlaylistTracks` returns: the error status when a page fails,
   * otherwise every page's non-removed tracks in page order.
   */
  function PlaylistTracks(pages: seq<PageResponse>): (r: Result<seq<Track>, int>)
    requires PageChain(pages)
    ensures r.Failure? <==> pages[|pages| - 1].PageFailed?
    ensures r.Failure? ==> r.error == pages[|pages| - 1].status
  {
    var last := pages[|pages| - 1];
    if last.PageFailed? then Failure(last.status) else Success(Collected(pages))
  }

  /**
   * A successful fetch returns exactly the tracks of all pages that were
   * not removed, page after page: the tracks of page `k`, as the filter
   * keeps them, sit between those of the pages before and after it.
   */
  lemma {:induction false} PlaylistTracksMembers(pages: seq<PageResponse>)
    requires PageChain(pages) && PlaylistTracks(pages).Success?
    ensures forall t :: t in PlaylistTracks(pages).value <==>
      exists i :: 0 <= i < |pages| && Some(t) in pages[i].items.GetOr([])
    ensures forall k :: 0 <= k < |pages| ==>
      PlaylistTracks(pages).value == Collected(pages[..k]) + ValidTracks(pages[k].items) + Collected(pages[k + 1..])
  {
    CollectedMembers(pages);
  }

  /** `getPlaylistTracks`: fetch pages while a next page is linked. */
  method GetPlaylistTracks(pages: seq<PageResponse>) returns (r: Result<seq<Track>, int>)
    requires PageChain(pages)
    ensures r == PlaylistTracks(pages)
  {
    var tracks: seq<Track> := [];
    var i := 0;
    var more := true;
    while more
      invariant 0 <= i <= |pages|
      invariant more ==> i < |pages|
      invariant !more ==> i == |pages| && pages[i - 1].Page?
      invariant tracks == Collected(pages[..i])
      invariant forall k :: 0 <= k < i ==> pages[k].Page?
      decreases |pages| - i
    {
      var response := pages[i];
      if response.PageFailed? {
        assert i == |pages| - 1;
        return Failure(response.status);
      }
      assert pages[..i + 1][..i] == pages[..i];
      tracks := tracks + ValidTracks(response.items);
      more := response.hasNext;
      i := i + 1;
    }
    assert pages[..i] == pages;
    return Success(tracks);
  }

  // ---------------------------------------------------------------------------
  // The sync job
  // ---------------------------------------------------------------------------

  /** `track.artists.map(a => a.name).join(', ')`. */
  function ArtistOf(t: Track): string {
    Join(t.artists, ", ")
  }

  /**
   * The key `spotifyTrackId in songsById` looks up: JavaScript turns a
   * `null` id into the key "null".
   */
  function IdKey(t: Track): string {
    match t.id
    case Some(id) => id
    case None => "null"
  }

  /** The id `addSong` stores: `spotifyTrackId || null`, so a `null` id and an empty one are stored as null. */
  function StoredId(t: Track): Option<string> {
    NullIfEmpty(t.id.GetOr(""))
  }

  /** The duplicate key of a track. */
  function TrackKey(t: Track): string {
    NormalizedKey(t.name, ArtistOf(t))
  }

  /**
   * What the loop does with one track, given the maps read before the loop:
   * skip it when its id is known, otherwise skip it when its key is known,
   * otherwise insert it with its id (no YouTube id yet).
   */
  function SyncPlan(t: Track, idx: Index): (p: Plan)
    ensures p.SkipById? <==> IdKey(t) in idx.byId
    ensures p.SkipById? ==> p.id == IdKey(t)
    ensures p.SkipByKey? <==> IdKey(t) !in idx.byId && TrackKey(t) in idx.byNameArtist
    ensures p.SkipByKey? ==> p.existing == idx.byNameArtist[TrackKey(t)]
    ensures p.Insert? ==>
      (p.songName == t.name && p.artist == ArtistOf(t) && p.youtubeId == None && p.spotifyTrackId == StoredId(t))
  {
    if IdKey(t) in idx.byId then SkipById(IdKey(t))
    else if TrackKey(t) in idx.byNameArtist then SkipByKey(idx.byNameArtist[TrackKey(t)])
    else Insert(t.name, ArtistOf(t), None, StoredId(t))
  }

  /** The plans of the tracks, in playlist order, against the same maps. */
  function SyncPlans(tracks: seq<Track>, idx: Index): (plans: seq<Plan>)
    ensures |plans| == |tracks|
  {
    PlanAll(tracks, t => SyncPlan(t, idx))
  }

  /** Each track is planned on its own: the plan at position `i` depends only on the track there and the maps. */
  lemma {:induction false} SyncPlansAt(tracks: seq<Track>, idx: Index, i: nat)
    requires i < |tracks|
    ensures SyncPlans(tracks, idx)[i] == SyncPlan(tracks[i], idx)
  {
    PlanAllAt(tracks, t => SyncPlan(t, idx), i);
  }

  /** The inputs of one sync run besides the stored songs. */
  datatype SyncInput = SyncInput(
    authStatus: int,
    pages: seq<PageResponse>,
    readFails: bool,
    failures: set<nat>)

  /** The outcome of `fetchAndAddSongs`. */
  datatype SyncResult =
    | Synced(log: seq<Outcome>, added: nat)
    | AuthFailed(status: int)
    | PlaylistFailed(status: int)

  /** The outcome and the rows the run inserted, in order. */
  datatype SyncOutput = SyncOutput(result: SyncResult, inserted: seq<SongRow>)

  predicate StatusOk(status: int) {
    200 <= status <= 299
  }

  /** The maps `getExistingSongs` yields. */
  function SyncIndex(rows: seq<SongRow>, readFails: bool): Index {
    if readFails then EmptyIndex else ExistingIndex(rows)
  }

  /** The run the loop performs over `tracks` with the maps `idx` read before it. */
  function SyncRun(idx: Index, tracks: seq<Track>, failures: set<nat>): Run {
    Assign(SyncPlans(tracks, idx), failures, idx.maxWeek + 1, WeekLabel)
  }

  lemma {:induction false} SyncRunUnfold(idx: Index, tracks: seq<Track>, failures: set<nat>)
    ensures SyncRun(idx, tracks, failures) == Assign(SyncPlans(tracks, idx), failures, idx.maxWeek + 1, WeekLabel)
  {
  }

  /** The run logs one `Added` per row it inserted. */
  lemma {:induction false} SyncRunCount(idx: Index, tracks: seq<Track>, failures: set<nat>)
    ensures CountAdded(SyncRun(idx, tracks, failures).log) == |SyncRun(idx, tracks, failures).inserted|
  {
    var week0: nat := idx.maxWeek + 1;
    SyncRunUnfold(idx, tracks, failures);
    AddedCountIsInserted(SyncPlans(tracks, idx), failures, week0, WeekLabel);
  }

  /** The outcome of that run: its log, the number of rows it added, and those rows. */
  function SyncWith(idx: Index, tracks: seq<Track>, failures: set<nat>): (out: SyncOutput)
    ensures out.result.Synced? && out.result.added == |out.inserted|
    ensures CountAdded(out.result.log) == out.result.added
  {
    SyncRunCount(idx, tracks, failures);
    var run := SyncRun(idx, tracks, failures);
    SyncOutput(Synced(run.log, |run.inserted|), run.inserted)
  }

  /**
   * `fetchAndAddSongs` as a function of the stored rows: an error before the
   * loop ends the run with nothing inserted; otherwise the loop runs over
   * the tracks with the maps read from `rows`.
   */
  function Sync(rows: seq<SongRow>, input: SyncInput): (out: SyncOutput)
    requires PageChain(input.pages)
    ensures !out.result.Synced? ==> out.inserted == []
    ensures out.result.Synced? ==> out.result.added == |out.inserted| && CountAdded(out.result.log) == out.result.added
  {
    if !StatusOk(input.authStatus) then SyncOutput(AuthFailed(input.authStatus), [])
    else
      match PlaylistTracks(input.pages)
      case Failure(status) => SyncOutput(PlaylistFailed(status), [])
      case Success(tracks) => SyncWith(SyncIndex(rows, input.readFails), tracks, input.failures)
  }

  lemma {:induction false} SyncRunSpec(rows: seq<SongRow>, input: SyncInput)
    requires PageChain(input.pages) && StatusOk(input.authStatus) && PlaylistTracks(input.pages).Success?
    ensures Sync(rows, input) == SyncWith(SyncIndex(rows, input.readFails), PlaylistTracks(input.pages).value, input.failures)
  {
  }

  /**
   * `fetchAndAddSongs`: fetch the playlist, read the maps once, then walk
   * the tracks.
   */
  method FetchAndAddSongs(songs: SongTable, input: SyncInput) returns (result: SyncResult)
    requires PageChain(input.pages)
    modifies songs
    ensures result == Sync(old(songs.rows), input).result
    ensures songs.rows == old(songs.rows) + Sync(old(songs.rows), input).inserted
  {
    if !StatusOk(input.authStatus) {
      return AuthFailed(input.authStatus);
    }
    var playlistTracks := GetPlaylistTracks(input.pages);
    if playlistTracks.Failure? {
      return PlaylistFailed(playlistTracks.error);
    }
    var tracks := playlistTracks.value;
    ghost var rows0 := songs.rows;
    var idx := songs.GetExistingSongs(input.readFails);
    assert idx == SyncIndex(rows0, input.readFails);
    var log, newSongsCount := AddNewTracks(songs, tracks, idx, input.failures);
    SyncRunUnfold(idx, tracks, input.failures);
    SyncRunSpec(rows0, input);
    return Synced(log, newSongsCount);
  }

  /**
   * The loop of `fetchAndAddSongs`: skip a track whose id or key the maps
   * hold, otherwise insert it under the current week and advance the week
   * when the insert succeeds. The maps are not updated inside the loop.
   */
  method AddNewTracks(songs: SongTable, tracks: seq<Track>, idx: Index, failures: set<nat>)
    returns (log: seq<Outcome>, newSongsCount: nat)
    modifies songs
    ensures var run := Assign(SyncPlans(tracks, idx), failures, idx.maxWeek + 1, WeekLabel);
      log == run.log && newSongsCount == |run.inserted| && songs.rows == old(songs.rows) + run.inserted
  {
    ghost var rows0 := songs.rows;
    ghost var plans := SyncPlans(tracks, idx);
    var week0: nat := idx.maxWeek + 1;
    log := [];
    newSongsCount := 0;
    var newWeek: nat := week0;
    ghost var run := Run([], [], week0);
    for i := 0 to |tracks|
      invariant run == Assign(plans[..i], failures, week0, WeekLabel)
      invariant log == run.log && newWeek == run.nextWeek
      invariant songs.rows == rows0 + run.inserted && newSongsCount == |run.inserted|
    {
      var track := tracks[i];
      SyncPlansAt(tracks, idx, i);
      var spotifyTrackId := track.id;
      var songName := track.name;
      var artist := Join(track.artists, ", ");
      if IdKey(track) in idx.byId {
        log := log + [SkippedById(IdKey(track))];
      } else {
        var normalizedKey := NormalizedKey(songName, artist);
        if normalizedKey in idx.byNameArtist {
          log := log + [SkippedByKey(idx.byNameArtist[normalizedKey])];
        } else {
          var weekStr := WeekLabel(newWeek);
          ghost var row := RowOf(plans[i], weekStr);
          assert row == SongRow(weekStr, songName, artist, NullIfEmpty(""), NullIfEmpty(spotifyTrackId.GetOr("")));
          ghost var before := songs.rows;
          // `addSong` stores `spotifyTrackId || null`, which maps a null id as it maps "".
          var added := songs.AddSong(weekStr, songName, artist, "", spotifyTrackId.GetOr(""), i !in failures);
          if added {
            assert songs.rows == rows0 + (run.inserted + [row]) by {
              assert songs.rows == before + [row];
              AppendAssoc(rows0, run.inserted, [row]);
            }
            log := log + [Added(weekStr)];
            newSongsCount := newSongsCount + 1;
            newWeek := newWeek + 1;
          } else {
            log := log + [AddFailed];
          }
        }
      }
      run := Step(run, plans[i], i, failures, WeekLabel);
      assert run == Assign(plans[..i + 1], failures, week0, WeekLabel) by {
        AssignStep(plans, failures, week0, WeekLabel, i);
      }
    }
    assert plans[..|tracks|] == plans;
  }

  /**
   * With no maps to consult every track is inserted, numbered from week 1
   * in playlist order, when no insert fails.
   */
  lemma {:induction false} EmptyIndexInsertsAll(tracks: seq<Track>)
    ensures |SyncRun(EmptyIndex, tracks, {}).inserted| == |tracks|
    ensures forall k :: 0 <= k < |tracks| ==>
      SyncRun(EmptyIndex, tracks, {}).inserted[k] ==
        SongRow(WeekLabel(1 + k), tracks[k].name, ArtistOf(tracks[k]), None, StoredId(tracks[k]))
  {
    if tracks != [] {
      EmptyIndexInsertsAt(tracks, 0);
    }
    forall k | 0 <= k < |tracks|
      ensures SyncRun(EmptyIndex, tracks, {}).inserted[k] ==
        SongRow(WeekLabel(1 + k), tracks[k].name, ArtistOf(tracks[k]), None, StoredId(tracks[k]))
    {
      EmptyIndexInsertsAt(tracks, k);
    }
  }

  /** The row inserted for the track at position `k` when there are no maps. */
  lemma {:induction false} EmptyIndexInsertsAt(tracks: seq<Track>, k: nat)
    requires k < |tracks|
    ensures |SyncRun(EmptyIndex, tracks, {}).inserted| == |tracks|
    ensures SyncRun(EmptyIndex, tracks, {}).inserted[k] ==
      SongRow(WeekLabel(1 + k), tracks[k].name, ArtistOf(tracks[k]), None, StoredId(tracks[k]))
  {
    var plans := SyncPlans(tracks, EmptyIndex);
    SyncRunUnfold(EmptyIndex, tracks, {});
    EmptyIndexPlans(tracks);
    AllInsertsNumbered(plans, 1, WeekLabel, k);
    EmptyIndexPlan(tracks, k);
  }

  /** With no maps every track is planned as an insert of its name, artists and id. */
  lemma {:induction false} EmptyIndexPlan(tracks: seq<Track>, k: nat)
    requires k < |tracks|
    ensures SyncPlans(tracks, EmptyIndex)[k] == Insert(tracks[k].name, ArtistOf(tracks[k]), None, StoredId(tracks[k]))
  {
    SyncPlansAt(tracks, EmptyIndex, k);
  }

  lemma {:induction false} EmptyIndexPlans(tracks: seq<Track>)
    ensures forall i :: 0 <= i < |tracks| ==> SyncPlans(tracks, EmptyIndex)[i].Insert?
  {
    forall i | 0 <= i < |tracks| ensures SyncPlans(tracks, EmptyIndex)[i].Insert? {
      SyncPlansAt(tracks, EmptyIndex, i);
    }
  }

  /**
   * When the read of the songs fails the maps are empty: every track of the
   * playlist is inserted again, numbered from week 1.
   */
  lemma {:induction false} ReadFailureInsertsAll(rows: seq<SongRow>, input: SyncInput)
    requires PageChain(input.pages) && StatusOk(input.authStatus) && input.readFails && input.failures == {}
    requires PlaylistTracks(input.pages).Success?
    ensures |Sync(rows, input).inserted| == |PlaylistTracks(input.pages).value|
    ensures forall k :: 0 <= k < |Sync(rows, input).inserted| ==> Sync(rows, input).inserted[k].week == WeekLabel(1 + k)
  {
    SyncRunSpec(rows, input);
    assert SyncIndex(rows, input.readFails) == EmptyIndex;
    EmptyIndexInsertsAll(PlaylistTracks(input.pages).value);
  }


  /**
   * The maps are not updated inside the loop: a new track listed twice in
   * the playlist is inserted twice, under two different weeks.
   */
  lemma {:induction false} RepeatedTrackInsertedTwice(rows: seq<SongRow>, input: SyncInput, i: nat, j: nat)
    requires PageChain(input.pages) && StatusOk(input.authStatus)
    requires PlaylistTracks(input.pages).Success?
    requires var tracks := PlaylistTracks(input.pages).value;
      i < j < |tracks| && tracks[i] == tracks[j] && SyncPlan(tracks[i], SyncIndex(rows, input.readFails)).Insert?
    requires i !in input.failures && j !in input.failures
    ensures Sync(rows, input).result.Synced?
    ensures Sync(rows, input).result.log[i].Added? && Sync(rows, input).result.log[j].Added?
    ensures Sync(rows, input).result.log[i].week != Sync(rows, input).result.log[j].week
  {
    SyncRunSpec(rows, input);
    RunAddsRepeatTwice(SyncIndex(rows, input.readFails), PlaylistTracks(input.pages).value, input.failures, i, j);
  }

  lemma {:induction false} RunAddsRepeatTwice(idx: Index, tracks: seq<Track>, failures: set<nat>, i: nat, j: nat)
    requires i < j < |tracks| && tracks[i] == tracks[j] && SyncPlan(tracks[i], idx).Insert?
    requires i !in failures && j !in failures
    ensures var log := SyncRun(idx, tracks, failures).log;
      |log| == |tracks| && log[i].Added? && log[j].Added? && log[i].week != log[j].week
  {
    WeekLabelsDistinct();
    var plans := SyncPlans(tracks, idx);
    var week0: nat := idx.maxWeek + 1;
    SyncRunUnfold(idx, tracks, failures);
    SyncPlansAt(tracks, idx, i);
    SyncPlansAt(tracks, idx, j);
    RepeatedEntryAddedTwice(plans, failures, week0, WeekLabel, i, j);
  }

  /**
   * After a run, every track of the playlist is known to the store: by its
   * id or key if it was skipped, by its key if it was inserted.
   */
  lemma {:induction false} KnownAfterRun(rows: seq<SongRow>, readFails: bool, tracks: seq<Track>, i: nat)
    requires i < |tracks|
    ensures var run := SyncRun(SyncIndex(rows, readFails), tracks, {});
      !SyncPlan(tracks[i], ExistingIndex(rows + run.inserted)).Insert?
  {
    var idx1 := SyncIndex(rows, readFails);
    var plans1 := SyncPlans(tracks, idx1);
    SyncPlansAt(tracks, idx1, i);
    var run := SyncRun(idx1, tracks, {});
    SyncRunUnfold(idx1, tracks, {});
    var rows2 := rows + run.inserted;
    var idx2 := ExistingIndex(rows2);
    var t := tracks[i];
    IndexKeysGrow(rows, run.inserted);
    if plans1[i].Insert? {
      AcceptedContains(plans1, {}, i);
      var acc := Accepted(plans1, {});
      var k :| 0 <= k < |acc| && acc[k] == plans1[i];
      var row := run.inserted[k];
      var week0: nat := idx1.maxWeek + 1;
      AssignInserted(plans1, {}, week0, WeekLabel, k);
      assert row.songName == t.name && row.artist == ArtistOf(t);
      assert RowKey(row) == TrackKey(t);
      assert rows2[|rows| + k] == row;
      assert TrackKey(t) in idx2.byNameArtist;
    } else if !readFails {
      assert idx1.byId.Keys <= idx2.byId.Keys;
      assert idx1.byNameArtist.Keys <= idx2.byNameArtist.Keys;
    }
  }

  /**
   * Re-running the sync over the same playlist after a run in which every
   * insert succeeded adds nothing, provided the second run reads the maps.
   */
  lemma {:induction false} SecondSyncAddsNothing(rows: seq<SongRow>, first: SyncInput, second: SyncInput)
    requires PageChain(first.pages) && PageChain(second.pages)
    requires Sync(rows, first).result.Synced? && first.failures == {}
    requires PlaylistTracks(second.pages) == PlaylistTracks(first.pages)
    requires StatusOk(second.authStatus) && !second.readFails
    ensures Sync(rows + Sync(rows, first).inserted, second).inserted == []
    ensures Sync(rows + Sync(rows, first).inserted, second).result.added == 0
  {
    var tracks := PlaylistTracks(first.pages).value;
    SyncRunSpec(rows, first);
    var run1 := SyncRun(SyncIndex(rows, first.readFails), tracks, {});
    var rows2 := rows + run1.inserted;
    SyncRunSpec(rows2, second);
    var idx2 := ExistingIndex(rows2);
    var plans2 := SyncPlans(tracks, idx2);
    forall i | 0 <= i < |plans2| ensures !plans2[i].Insert? {
      KnownAfterRun(rows, first.readFails, tracks, i);
      SyncPlansAt(tracks, idx2, i);
    }
    AllSkipsInsertNothing(plans2, second.failures, idx2.maxWeek + 1, WeekLabel);
  }

  // ---------------------------------------------------------------------------
  // The endpoint
  // ---------------------------------------------------------------------------

  /** The environment variables the endpoint reads. */
  datatype Env = Env(clientId: Option<string>, clientSecret: Option<string>, playlistId: Option<string>)

  /** `process.env.SPOTIFY_PLAYLIST_ID || SPOTIFY_PLAYLIST_ID || default`. */
  function PlaylistId(env: Env): (id: string)
    ensures id != ""
  {
    if Truthy(env.playlistId) then env.playlistId.value else DefaultPlaylistId
  }

  /** The JSON body and status of a response; `result` is present when the sync ran. */
  datatype Response = Response(status: int, success: bool, remaining: Option<int>, result: Option<SyncResult>)

  /** What one request does: its response and the two tables afterwards. */
  datatype Effect = Effect(response: Response, executions: seq<int>, rows: seq<SongRow>)

  /**
   * `GET`: check the limit (429 when exceeded), check the credentials (500
   * when missing), record the run, run the sync, and report the remaining
   * runs less the one just recorded.
   */
  function HandleGet(executions: seq<int>, rows: seq<SongRow>, env: Env, clock: Clock, store: RateStore, input: SyncInput): (e: Effect)
    requires PageChain(input.pages)
  {
    var cleaned := AfterClean(executions, clock, store);
    var rate := RateDecide(WindowCount(executions, clock, store));
    if !rate.allowed then Effect(Response(429, false, Some(0), None), cleaned, rows)
    else if !Truthy(env.clientId) || !Truthy(env.clientSecret) then
      Effect(Response(500, false, Some(rate.remaining), None), cleaned, rows)
    else
      var recorded := if store.recordOk then cleaned + [clock.recordAt] else cleaned;
      var out := Sync(rows, input);
      var status := if out.result.Synced? then 200 else 500;
      Effect(Response(status, out.result.Synced?, Some(rate.remaining - 1), Some(out.result)), recorded, rows + out.inserted)
  }

  /**
   * A request over the limit, or without credentials, records nothing and
   * does not touch the songs; the first answers 429 with nothing remaining.
   */
  lemma {:induction false} RejectedRequestsChangeNothing(executions: seq<int>, rows: seq<SongRow>, env: Env, clock: Clock, store: RateStore, input: SyncInput)
    requires PageChain(input.pages)
    ensures var e := HandleGet(executions, rows, env, clock, store, input);
      (e.response.status == 429 <==> WindowCount(executions, clock, store) >= MaxExecutions) &&
      (e.response.status == 429 ==> e.response.remaining == Some(0)) &&
      (e.response.result.None? ==> e.rows == rows && e.executions == AfterClean(executions, clock, store)) &&
      (e.response.result.None? <==> e.response.status == 429 || !Truthy(env.clientId) || !Truthy(env.clientSecret))
  {
  }

  /**
   * A request that runs the sync has recorded its run first, and reports
   * one run fewer than the limiter allowed, whether the sync failed or not.
   */
  lemma {:induction false} AdmittedRequestRecordsRun(executions: seq<int>, rows: seq<SongRow>, env: Env, clock: Clock, store: RateStore, input: SyncInput)
    requires PageChain(input.pages)
    requires HandleGet(executions, rows, env, clock, store, input).response.result.Some?
    ensures var e := HandleGet(executions, rows, env, clock, store, input);
      var count := WindowCount(executions, clock, store);
      count < MaxExecutions &&
      e.response.remaining == Some(MaxExecutions - count - 1) &&
      0 <= e.response.remaining.value < MaxExecutions &&
      (store.recordOk ==> e.executions == AfterClean(executions, clock, store) + [clock.recordAt]) &&
      (e.response.status == 200 <==> e.response.result.value.Synced?)
  {
  }

  /** `GET` of the sync endpoint. */
  method Get(limits: RateLimitTable, songs: SongTable, env: Env, clock: Clock, store: RateStore, input: SyncInput)
    returns (response: Response)
    requires PageChain(input.pages)
    modifies limits, songs
    ensures HandleGet(old(limits.executedAt), old(songs.rows), env, clock, store, input) ==
      Effect(response, limits.executedAt, songs.rows)
  {
    var rateLimit := CheckRateLimit(limits, clock, store);
    if !rateLimit.allowed {
      return Response(429, false, Some(0), None);
    }
    if !Truthy(env.clientId) || !Truthy(env.clientSecret) {
      return Response(500, false, Some(rateLimit.remaining), None);
    }
    limits.AddExecution(clock.recordAt, store.recordOk);
    var result := FetchAndAddSongs(songs, input);
    if !result.Synced? {
      return Response(500, false, Some(rateLimit.remaining - 1), Some(result));
    }
    return Response(200, true, Some(rateLimit.remaining - 1), Some(result));
  }
}
