# de-artis: the song-of-the-week pipeline, modelled in Dafny

de-artis archives one song per week in a `musix_songs` table. Each row holds
a `week` label such as "week 07", a song name, an artist, and optionally a
YouTube id and a Spotify track id. This project models the code that fills
and reads that table and proves properties of it:

- **SongStore** (`app/musix/db.ts`) is the songs table. It is a class
  `SongTable` whose `rows` field the methods change in place. It also holds
  the pure views the routes read:
  - the archive sorted by week, newest first;
  - the index `getExistingSongs` builds, which prefers rows with a Spotify
    id under a name/artist key;
  - the maximum week number.
- **RateLimitStore** (`app/musix/db.ts`) is the `musix_rate_limit` table.
  It is a class holding execution timestamps in milliseconds.
- **WeekAssignment** is the loop shared by both importers. The lookup
  dictionaries are built once, so the decision for each playlist entry (a
  `Plan`) depends only on that entry and the dictionaries. The run is a fold
  over the plans: every successful insert takes the next week number.
- **FetchSongs** (`app/api/musix/fetch-songs/route.ts`) models the
  rate-limited `GET`:
  - the fixed 24-hour window of at most 50 runs;
  - paginated Spotify playlist reading, with null tracks dropped;
  - `fetchAndAddSongs` with its dedup by Spotify id, then by normalised
    "song|artist" key.
- **AlbumArt** (`app/api/musix/album-art/route.ts`) models the Last.fm
  fallback chain:
  - `track.getInfo` with the full artist;
  - then with the first artist of a comma-separated list;
  - then `track.search`.
- **YoutubeBackfill** (`app/api/musix/ensure-youtube-id/route.ts`) models
  the lazy backfill of the newest song's YouTube id.
- **TitleParsing** and **PlaylistImporter** (`app/musix/fetch_songs.py`)
  cover the YouTube-playlist importer:
  - splitting a title at the first separator;
  - the regex clean-ups;
  - the channel fallback for the artist;
  - video details in batches of 50;
  - the index keyed by YouTube id and name/artist;
  - the week loop.
- **Text** and **Weeks** are the string operations involved:
  - ASCII `trim` and lower-casing;
  - substring search;
  - decimal digits;
  - code-point string order;
  - the "week NN" labels.

Things outside the code become parameters of the model:
- network replies (Spotify pages, Last.fm replies, YouTube search results,
  video lookups);
- store failures, as a flag per read or write, or the set of playlist
  positions whose insert fails;
- clock readings;
- environment variables.

The central properties:
- Every inserted row gets the next week label, `maxWeek + 1 + k`.
- Re-running an import on the table it produced adds nothing.
- A repeated entry within one playlist is inserted twice.
- A rejected request changes nothing but the cleaned rate table.
- The album-art chain tries its three requests in order and stops at the
  first useful answer.
- The backfill is idempotent.

The code inserts both copies of a track that appears twice in
one playlist, because the lookup dictionaries are not updated inside the
loop (`fetch-songs/route.ts:122-162`, `fetch_songs.py:144-211`). A reader
might expect the dedup to catch such a repeat, but this project follows the code.
`FetchSongs.RepeatedTrackInsertedTwice` and
`WeekAssignment.RepeatedEntryAddedTwice` prove that both copies are added,
under different weeks.

## Model

| member | source | states |
|---|---|---|
| Text.TrimSpec | app/musix/db.ts:144 | the input is whitespace, then the result, then whitespace, and the result neither starts nor ends with whitespace: trimming removes exactly the surrounding whitespace |
| Text.TrimIgnoresPadding | app/api/musix/fetch-songs/route.ts:135 | whitespace added on either side of a string does not change its trimmed form |
| Text.LowerSpec | app/musix/db.ts:144 | lower-casing leaves no upper-case letter, keeps every other character and keeps whitespace where it was |
| Text.LowerIdempotent | app/musix/db.ts:144 | lower-casing twice is lower-casing once |
| Text.IndexOfSpec | app/musix/fetch_songs.py:169-170 | the search finds a position iff the text contains the separator, and that position is the first occurrence |
| Text.BeforeFirstSpec | app/api/musix/album-art/route.ts:104 | `split(',')[0]` is a prefix free of commas that ends at the first comma or at the end |
| Text.NatToStringRoundTrip | app/api/musix/fetch-songs/route.ts:145 | reading back the decimal text of a number gives the number |
| Text.FirstDigitRun | app/musix/db.ts:156-157 | a match of `/\d+/` is a non-empty run of digits |
| Text.FirstDigitRunNone | app/musix/db.ts:156-157 | `/\d+/` finds no match exactly when the label has no digit |
| Text.DigitsOnlyAppend | app/musix/db.ts:104 | removing non-digits from a concatenation removes them from each part |
| Text.StrLeTotal | app/musix/db.ts:24 | any two week labels are comparable in string order |
| Text.StrLeTransitive | app/musix/db.ts:24 | string order is transitive |
| Text.StrLeAntisymmetric | app/musix/db.ts:24 | two labels that each sort before the other are equal |
| Weeks.PadStart | app/api/musix/fetch-songs/route.ts:145 | the padded text has the larger of its own length and the width |
| Weeks.PaddedDigits | app/api/musix/fetch-songs/route.ts:145 | the zero-padded number is all digits and denotes the same number |
| Weeks.WeekLabelRoundTrip | app/musix/db.ts:156-157 | the index builder reads week n back from the label it was written with |
| Weeks.WeekLabelAllDigits | app/musix/db.ts:104-105 | the single-row maximum, which strips every non-digit, also reads week n back from its label |
| Weeks.WeekLabelInjective | app/musix/fetch_songs.py:203 | two weeks with the same label are the same week |
| Weeks.WeekLabelsDistinct | app/api/musix/fetch-songs/route.ts:145 | different week numbers get different labels |
| Weeks.WeekLabelOrder | app/musix/db.ts:24 | below week 100, string order on labels is numeric order on weeks, in both directions |
| Weeks.WeekLabelOrderBreaksAt100 | app/musix/db.ts:96 | "week 100" sorts strictly before "week 99" as a string |
| Weeks.NumberAfterText | app/musix/db.ts:156-157 | a digit-free prefix followed by digits reads as the value of those digits |
| SongStore.NullIfEmpty | app/musix/db.ts:51-52 | JavaScript's "or null" stores null exactly for the empty string and otherwise stores the value |
| SongStore.NormalizedKeyIgnoresCase | app/musix/db.ts:144 | names that differ only in letter case have the same dedup key |
| SongStore.NormalizedKeyIgnoresPadding | app/api/musix/fetch-songs/route.ts:135 | names that differ only in surrounding whitespace have the same dedup key |
| SongStore.MaxWeekOfSpec | app/musix/db.ts:155-158 | `maxWeek` is at least every row's week number and is one of them, or 0 for no rows |
| SongStore.MaxWeekStep | app/musix/db.ts:158 | one more row raises `maxWeek` to that row's week number when larger |
| SongStore.LastWinsSpec | app/musix/fetch_songs.py:87-101 | the dictionary has a key for exactly the kept rows, and the last row with a key is the one it holds |
| SongStore.PreferringIds | app/musix/db.ts:146-153 | every row's name/artist key is present, and every present key comes from some row |
| SongStore.PreferringIdsStep | app/musix/db.ts:146 | a row overwrites its key when the key is absent or the row has a Spotify id, and otherwise leaves the map unchanged |
| SongStore.PreferringIdsLastWithId | app/musix/db.ts:146-153 | a key maps to the last row with a Spotify id among its rows |
| SongStore.PreferringIdsFirstWithout | app/musix/db.ts:146-153 | a key none of whose rows has a Spotify id maps to its first row |
| SongStore.FirstKeyIsNew | app/musix/db.ts:146 | a key seen for the first time is absent from the map built so far |
| SongStore.IdIndexStep | app/musix/db.ts:133-140 | only a row with a Spotify id enters `songsById`, under that id |
| SongStore.NameIndexStep | app/musix/db.ts:144-153 | one more row updates `songsByNameArtist` under its lower-cased, trimmed key by the preference rule |
| SongStore.IndexKeysGrow | app/musix/db.ts:126-159 | adding rows never removes a key from either dictionary |
| SongStore.InsertByWeekDesc | app/musix/db.ts:24 | inserting into a week-descending list keeps it sorted and adds exactly that row |
| SongStore.SortByWeekDesc | app/musix/db.ts:24 | the result is sorted by week, descending, and is a permutation of the rows |
| SongStore.ArchivedSongs | app/musix/db.ts:20-37 | a failed read gives no songs, and a good read gives all rows sorted newest first |
| SongStore.LatestHasGreatestWeek | app/api/musix/album-art/route.ts:180 | `songs[0]` is a stored row whose week sorts at or above every other row's |
| SongStore.LabelNumbersFollowOrder | app/musix/db.ts:104 | for labels below 100, string order implies week-number order |
| SongStore.GetMaxWeekBelow100 | app/musix/db.ts:92-106 | while every label is a week below 100, `getMaxWeek` returns the largest week number |
| SongStore.GetMaxWeekPast99 | app/musix/db.ts:92-106 | with "week 99" and "week 100" stored, `getMaxWeek` returns 99 while the largest week is 100 |
| SongStore.WithYoutubeId | app/musix/db.ts:78-89 | exactly the rows with the given Spotify id get the YouTube id, and nothing else changes |
| SongStore.SortCommutesWithYoutubeId | app/musix/db.ts:78-89 | setting a YouTube id does not change where a row sorts |
| SongStore.WithYoutubeIdKeepsOrder | app/musix/db.ts:81-82 | a week-sorted list stays sorted after the update |
| SongStore.InsertCommutesWithYoutubeId | app/musix/db.ts:81-82 | inserting by week and then updating is updating and then inserting |
| SongStore.SongTable.AddSong | app/musix/db.ts:40-61 | an accepted insert appends one row with empty ids stored as null, and a rejected one changes nothing; the result reports which |
| SongStore.SongTable.UpdateSongYoutubeId | app/musix/db.ts:78-89 | an accepted update sets the YouTube id on every row with the Spotify id, and a rejected one changes nothing |
| SongStore.SongTable.GetExistingSongs | app/musix/db.ts:108-162 | a failed read gives empty dictionaries and week 0, and otherwise the dictionaries and maximum over all rows |
| WeekAssignment.RowOf | app/api/musix/fetch-songs/route.ts:148-153 | an inserted row carries the planned name, artist and ids under the given week |
| WeekAssignment.PlanAllAt | app/api/musix/fetch-songs/route.ts:122 | each entry is planned on its own, from the entry and the fixed dictionaries |
| WeekAssignment.Accepted | app/api/musix/fetch-songs/route.ts:155-158 | only insert plans are accepted, and no more than there are plans |
| WeekAssignment.Assign | app/api/musix/fetch-songs/route.ts:119-162 | one log entry per plan; the next week is the first week plus the rows inserted; one row per accepted insert |
| WeekAssignment.AssignInserted | app/api/musix/fetch-songs/route.ts:145-158 | the k-th inserted row is the k-th accepted insert, labelled week `first + k` |
| WeekAssignment.AllAccepted | app/api/musix/fetch-songs/route.ts:155-158 | when no insert fails, every insert plan is accepted |
| WeekAssignment.AllInsertsNumbered | app/api/musix/fetch-songs/route.ts:145-158 | when every entry is new and no insert fails, entry k becomes a row of week `first + k` |
| WeekAssignment.AssignStep | app/api/musix/fetch-songs/route.ts:122 | one more entry extends the run by that entry's step alone |
| WeekAssignment.AcceptedContains | app/api/musix/fetch-songs/route.ts:155-157 | an insert that does not fail is accepted |
| WeekAssignment.AssignPrefix | app/api/musix/fetch-songs/route.ts:122-162 | later entries do not change the outcomes or rows of earlier ones |
| WeekAssignment.LogEntry | app/api/musix/fetch-songs/route.ts:128-161 | the i-th outcome is a skip by id, a skip by key, a failure, or "added" under the week after the earlier accepted inserts |
| WeekAssignment.StepLast | app/api/musix/fetch-songs/route.ts:128-161 | the outcome of one step follows its plan and the current week counter |
| WeekAssignment.StepAppends | app/api/musix/fetch-songs/route.ts:155-161 | a step appends to the log and the rows and never rewrites them |
| WeekAssignment.AddedCountIsInserted | app/api/musix/fetch-songs/route.ts:157 | the number of "added" outcomes is the number of rows inserted |
| WeekAssignment.AllSkipsInsertNothing | app/api/musix/fetch-songs/route.ts:164-165 | when every entry is a duplicate, nothing is inserted and the counter does not move |
| WeekAssignment.RepeatedEntryAddedTwice | app/api/musix/fetch-songs/route.ts:113-162 | the same new entry twice in one run is added twice, under two different weeks |
| WeekAssignment.AcceptedGrows | app/api/musix/fetch-songs/route.ts:158 | the week counter strictly increases past every accepted insert |
| WeekAssignment.AcceptedAreInserts | app/api/musix/fetch-songs/route.ts:148-153 | every accepted plan is one of the run's plans |
| WeekAssignment.InsertedFrom | app/api/musix/fetch-songs/route.ts:148-153 | every inserted row comes from an insert plan of the run, labelled with its position's week |
| RateLimitStore.KeepFrom | app/musix/db.ts:188-199 | deleting rows older than the cutoff keeps exactly the timestamps at or after it, each as often as it was stored |
| RateLimitStore.KeepFromAppend | app/musix/db.ts:188-199 | the delete keeps the stored order: the kept rows of `a + b` are those of `a` followed by those of `b` |
| RateLimitStore.InsertDesc | app/musix/db.ts:168 | inserting keeps the timestamps newest first and adds exactly the one timestamp |
| RateLimitStore.SortDesc | app/musix/db.ts:168 | the read timestamps are newest first and a permutation of the table |
| RateLimitStore.RateLimitTable.GetExecutions | app/musix/db.ts:164-176 | a failed read gives none, and otherwise every stored timestamp newest first |
| RateLimitStore.RateLimitTable.AddExecution | app/musix/db.ts:178-186 | an accepted insert appends the current time, and a failed one changes nothing |
| RateLimitStore.RateLimitTable.CleanOld | app/musix/db.ts:188-199 | an accepted delete leaves exactly the timestamps at or after `now - windowHours` hours, in stored order and with their multiplicity; a failed one changes nothing |
| FetchSongs.CleanOldExecutions | app/api/musix/fetch-songs/route.ts:7-11 | keeps exactly the timestamps less than 24 hours old |
| FetchSongs.CleanOldExecutionsAppend | app/api/musix/fetch-songs/route.ts:10 | the filter acts on each timestamp independently |
| FetchSongs.CleanOldCountIgnoresOrder | app/api/musix/fetch-songs/route.ts:19 | the number of recent runs does not depend on the read order |
| FetchSongs.DeleteThenFilter | app/api/musix/fetch-songs/route.ts:15-19 | deleting old rows in the store and then filtering counts the same as filtering alone |
| FetchSongs.RateDecide | app/api/musix/fetch-songs/route.ts:21-25 | refused iff 50 or more runs are in the window; the remaining count is 0 when refused and `50 - count` (1 to 50) when admitted |
| FetchSongs.WindowCountSpec | app/api/musix/fetch-songs/route.ts:13-26 | the count is the recent runs, or none when the read fails (which admits the request) |
| FetchSongs.RecordedRunCounts | app/api/musix/fetch-songs/route.ts:227 | a recorded run counts against the window at that moment |
| FetchSongs.CheckRateLimit | app/api/musix/fetch-songs/route.ts:13-26 | the table is cleaned as the store allows and the decision is made on the window count |
| FetchSongs.NonNullAppend | app/api/musix/fetch-songs/route.ts:91 | the filter keeps the page order: the kept tracks of `a + b` are those of `a` followed by those of `b` |
| FetchSongs.NonNullMembers | app/api/musix/fetch-songs/route.ts:91 | a track is kept iff it is listed, and as often as it is listed; null tracks are dropped |
| FetchSongs.CollectedMembers | app/api/musix/fetch-songs/route.ts:76-95 | a track is collected iff it is a non-null track of a page read; each page's kept tracks sit, in order, between those of the pages before and after it |
| FetchSongs.CollectedAppend | app/api/musix/fetch-songs/route.ts:76-95 | `allTracks.push(...)` page by page: the tracks of pages `a + b` are those of `a` followed by those of `b` |
| FetchSongs.PlaylistTracks | app/api/musix/fetch-songs/route.ts:76-97 | reading fails iff a page request fails, and then with that page's status |
| FetchSongs.PlaylistTracksMembers | app/api/musix/fetch-songs/route.ts:72-98 | on success, a track is returned iff it is a non-null track on some page, and page k's kept tracks sit, in order, between those of the pages before and after it |
| FetchSongs.GetPlaylistTracks | app/api/musix/fetch-songs/route.ts:72-98 | the `while (nextUrl)` loop returns the tracks of the chain of pages, or fails with the status |
| FetchSongs.SyncPlan | app/api/musix/fetch-songs/route.ts:123-142 | skip by id iff the Spotify id's key (the string "null" for a missing id) is stored; else skip by key iff the name/artist key is stored; else insert the name, the artists joined by ", " and the Spotify id, stored as null when missing or empty |
| FetchSongs.SyncPlansAt | app/api/musix/fetch-songs/route.ts:122 | the plan at position i is that of track i |
| FetchSongs.SyncRunCount | app/api/musix/fetch-songs/route.ts:157 | `newSongsCount` equals the number of "added" outcomes |
| FetchSongs.SyncWith | app/api/musix/fetch-songs/route.ts:100-181 | a completed sync reports as many songs added as rows it inserts |
| FetchSongs.Sync | app/api/musix/fetch-songs/route.ts:100-181 | a failed token or playlist request inserts nothing, and a completed run reports exactly the rows inserted |
| FetchSongs.SyncRunSpec | app/api/musix/fetch-songs/route.ts:103-173 | with a token and the playlist read, the sync is the week loop over the tracks and the stored index |
| FetchSongs.FetchAndAddSongs | app/api/musix/fetch-songs/route.ts:100-181 | returns the sync's result and appends exactly its rows to the table |
| FetchSongs.AddNewTracks | app/api/musix/fetch-songs/route.ts:119-162 | the loop's log, count and appended rows are the week loop's, starting at `maxWeek + 1` |
| FetchSongs.EmptyIndexInsertsAll | app/musix/db.ts:117-119 | against an empty index every track is inserted, track k under week `1 + k` |
| FetchSongs.ReadFailureInsertsAll | app/musix/db.ts:117-119 | when reading the stored songs fails, every playlist track is inserted again from week 1 |
| FetchSongs.RepeatedTrackInsertedTwice | app/api/musix/fetch-songs/route.ts:122-162 | a new track listed twice in the playlist is added twice, under two weeks |
| FetchSongs.RunAddsRepeatTwice | app/api/musix/fetch-songs/route.ts:129-158 | the same statement, for the loop over any index |
| FetchSongs.KnownAfterRun | app/api/musix/fetch-songs/route.ts:129-142 | after a run, each of its tracks is a duplicate, by id or by key, of the updated table |
| FetchSongs.SecondSyncAddsNothing | app/api/musix/fetch-songs/route.ts:100-181 | syncing the same playlist again on the table the first sync produced adds nothing |
| FetchSongs.PlaylistId | app/api/musix/fetch-songs/route.ts:202 | the playlist id is never empty, so the missing-id branch cannot be reached |
| FetchSongs.RejectedRequestsChangeNothing | app/api/musix/fetch-songs/route.ts:183-224 | 429 iff the window is full (with 0 remaining); a request without credentials or over the limit neither records a run nor touches the songs |
| FetchSongs.AdmittedRequestRecordsRun | app/api/musix/fetch-songs/route.ts:226-250 | an admitted request records one run, reports `remaining - 1`, and answers 200 iff the sync completed |
| FetchSongs.Get | app/api/musix/fetch-songs/route.ts:183-261 | the handler's response and its effects on both tables are those of the pure handler |
| AlbumArt.OrNull | app/api/musix/album-art/route.ts:87 | JavaScript's "or null" gives null exactly for the empty string |
| AlbumArt.LargestArt | app/api/musix/album-art/route.ts:84-86 | the art is the last image's URL, or null when that URL is empty |
| AlbumArt.TryTrackGetInfo | app/api/musix/album-art/route.ts:28-92 | success iff a track with an album came back; a failure carries no fields; a success carries the album title and the last image, if any |
| AlbumArt.FirstArtistSpec | app/api/musix/album-art/route.ts:104 | `split(',')[0].trim()` is the text before the first comma (or all of it) with exactly its surrounding whitespace removed: no comma and no edge whitespace |
| AlbumArt.TryLastFmSearch | app/api/musix/album-art/route.ts:121-172 | never an album name; art iff the first match has images whose last URL is non-empty |
| AlbumArt.GetLastFmAlbumArt | app/api/musix/album-art/route.ts:94-119 | the first request is `track.getInfo` with the full artist, and no reported field is an empty string |
| AlbumArt.FullArtistAnswerWins | app/api/musix/album-art/route.ts:97-100 | a useful first answer is returned after that single request |
| AlbumArt.RetryOnlyForArtistLists | app/api/musix/album-art/route.ts:102-110 | a second `track.getInfo` is made iff the first was not useful and the artist contains a comma, and it uses the first artist |
| AlbumArt.RetryAnswerWins | app/api/musix/album-art/route.ts:106-109 | a useful answer to the retry is returned after exactly the two `track.getInfo` requests |
| AlbumArt.ThrowEndsChain | app/api/musix/album-art/route.ts:115-118 | an exception from either `track.getInfo` ends the chain with no art and no album name, and the search is never sent |
| AlbumArt.SearchIsLastResort | app/api/musix/album-art/route.ts:112-114 | the search is made iff every getInfo attempt returned without a useful answer; it is then the last request and its result is returned |
| AlbumArt.AlbumNameOnlyFromGetInfo | app/api/musix/album-art/route.ts:163-164 | an album name only ever comes from a `track.getInfo` that found the track |
| AlbumArt.Get | app/api/musix/album-art/route.ts:177-228 | always 200; no song iff the read throws or finds nothing; otherwise the newest song's name and artist; no art without an API key |
| AlbumArt.GetReportsChainResult | app/api/musix/album-art/route.ts:204-217 | with a key, the reported art and album name are the chain's |
| YoutubeBackfill.YouTubeQuery | app/api/musix/ensure-youtube-id/route.ts:8 | the query is "song - artist" with exactly its surrounding whitespace removed: it has no edge whitespace and is no longer than that text |
| YoutubeBackfill.SearchYouTubeVideo | app/api/musix/ensure-youtube-id/route.ts:5-25 | an id iff the search returned a first hit with a non-empty id, and then that id |
| YoutubeBackfill.EnsureYoutubeIdSpec | app/api/musix/ensure-youtube-id/route.ts:27-89 | status 500 exactly when the read throws; rows change only after a search; success iff an id is reported |
| YoutubeBackfill.NoSongsNoSearch | app/api/musix/ensure-youtube-id/route.ts:32-34 | with no songs, a failure and no search |
| YoutubeBackfill.KnownIdReported | app/api/musix/ensure-youtube-id/route.ts:37-43 | a newest song with a YouTube id is reported as it is, without a search |
| YoutubeBackfill.NoSpotifyIdNoSearch | app/api/musix/ensure-youtube-id/route.ts:46-51 | a newest song without a Spotify id fails without a search |
| YoutubeBackfill.SearchThenUpdate | app/api/musix/ensure-youtube-id/route.ts:53-80 | otherwise "song - artist" is searched; no hit changes nothing; a hit is stored on the rows with the song's Spotify id, and success is the update's |
| YoutubeBackfill.BackfillIdempotent | app/api/musix/ensure-youtube-id/route.ts:27-80 | after a success, asking again reports the same id without searching or changing anything |
| YoutubeBackfill.EnsureYoutubeId | app/api/musix/ensure-youtube-id/route.ts:27-89 | the handler's answer and the table afterwards are those of the decision chain |
| TitleParsing.StripTopic | app/musix/fetch_songs.py:158 | removing the topic suffix never lengthens the channel name |
| TitleParsing.StripTopicRemovesSuffix | app/musix/fetch_songs.py:158 | "Name - Topic" (any spacing, `T` or `t`) loses the suffix and the spaces before it |
| TitleParsing.StripBracketPrefixUnchanged | app/musix/fetch_songs.py:178 | the name is unchanged iff it has no bracketed prefix, and a removed prefix makes it strictly shorter |
| TitleParsing.StripBracketPrefixRemovesTag | app/musix/fetch_songs.py:178 | "[tag] rest" becomes "rest" |
| TitleParsing.StripEnclosedSuffixUnchanged | app/musix/fetch_songs.py:179 | the name is unchanged iff it has no enclosed suffix, and a removed suffix makes it strictly shorter |
| TitleParsing.StripEnclosedSuffixRemoves | app/musix/fetch_songs.py:179 | "name (tag)" with the first opening bracket of the tail loses the tail and the spaces before it |
| TitleParsing.FirstOpenFinds | app/musix/fetch_songs.py:179 | the non-greedy match starts at the first opening bracket whose tail matches |
| TitleParsing.FirstOpenSpec | app/musix/fetch_songs.py:179 | a found bracket opens a matching suffix, and none is found iff no bracket from the search start opens one |
| TitleParsing.ParseTitleSplits | app/musix/fetch_songs.py:167-175 | a title is split at the first occurrence of the first separator it contains, both sides trimmed |
| TitleParsing.ParseFromSkips | app/musix/fetch_songs.py:168-169 | separators absent from the title are passed over |
| TitleParsing.ParseTitleWithoutSeparator | app/musix/fetch_songs.py:163-164 | without a separator the song is the whole title and the artist is the channel |
| TitleParsing.CleanSong | app/musix/fetch_songs.py:178-180 | cleaning never lengthens the song name |
| TitleParsing.CleanArtist | app/musix/fetch_songs.py:183-187 | cleaning never lengthens the artist |
| TitleParsing.CleanChannel | app/musix/fetch_songs.py:158 | cleaning never lengthens the channel name |
| TitleParsing.ResolveArtist | app/musix/fetch_songs.py:190-193 | an informative artist is kept; an empty or "unknown" one is replaced by the cleaned channel |
| TitleParsing.NamesOfFallback | app/musix/fetch_songs.py:155-193 | an artist that is still empty or "unknown" after the fallback is the twice-cleaned channel |
| PlaylistImporter.ItemsOfAppend | app/musix/fetch_songs.py:42 | items of consecutive pages are concatenated in order |
| PlaylistImporter.GetPlaylistItems | app/musix/fetch_songs.py:28-48 | the page loop returns the items of every page, in order |
| PlaylistImporter.DetailsOf | app/musix/fetch_songs.py:66-69 | a video without a channel title is recorded under "unknown" |
| PlaylistImporter.BatchesCover | app/musix/fetch_songs.py:55-56 | the batches partition the ids in order, each of 1 to 50 ids, all but the last exactly 50 |
| PlaylistImporter.RecordLastWins | app/musix/fetch_songs.py:63-69 | an id maps to the details of its last video in the response |
| PlaylistImporter.RecordKeeps | app/musix/fetch_songs.py:63-69 | ids not in the response keep what they had |
| PlaylistImporter.GetVideoDetails | app/musix/fetch_songs.py:50-71 | the requested batches are the 50-id batches, and the details are every response recorded in order |
| PlaylistImporter.FiledById | app/musix/fetch_songs.py:87 | every row's YouTube id (possibly None) is a key of `songs_by_id` |
| PlaylistImporter.FiledByKey | app/musix/fetch_songs.py:95-96 | every row's name/artist key is a key of `songs_by_name_artist` |
| PlaylistImporter.ImporterIndexLastById | app/musix/fetch_songs.py:87-92 | an id maps to the last row with that id |
| PlaylistImporter.ImporterIndexLastByKey | app/musix/fetch_songs.py:95-101 | a key maps to the last row with that key, whatever its ids |
| PlaylistImporter.IdsGrow | app/musix/fetch_songs.py:81-92 | more rows never remove an id |
| PlaylistImporter.KeysGrow | app/musix/fetch_songs.py:94-101 | more rows never remove a key |
| PlaylistImporter.ImporterIndexStep | app/musix/fetch_songs.py:81-105 | one more row overwrites both dictionaries under its keys and raises the maximum to its week number |
| PlaylistImporter.GetExistingSongs | app/musix/fetch_songs.py:73-107 | the dictionaries and maximum over all stored rows |
| PlaylistImporter.ImportPlan | app/musix/fetch_songs.py:145-200 | skip iff the video id is stored; otherwise skip iff the parsed name/artist key is stored; otherwise insert the parsed names with the video id and no Spotify id |
| PlaylistImporter.ImportPlansAt | app/musix/fetch_songs.py:144 | the plan at position i is that of item i |
| PlaylistImporter.ImportRunIsLoop | app/musix/fetch_songs.py:123-144 | the import run is the week loop over the items read, the details fetched and the dictionaries built, counting from `max_week + 1` |
| PlaylistImporter.VideoIds | app/musix/fetch_songs.py:136 | the ids are the items' video ids, position by position |
| PlaylistImporter.RunWithWeeks | app/musix/fetch_songs.py:202-209 | the k-th row inserted gets week `first + k` and no Spotify id |
| PlaylistImporter.ImportedWeeks | app/musix/fetch_songs.py:142 | the k-th row inserted gets week `max_week + 1 + k` |
| PlaylistImporter.InsertedItem | app/musix/fetch_songs.py:206 | an item planned for insertion yields a row with its video id |
| PlaylistImporter.InsertedIsFiled | app/musix/fetch_songs.py:87 | an inserted item's video id is a key of the index of the updated table |
| PlaylistImporter.KnownAfterRun | app/musix/fetch_songs.py:150 | after a run without failures, every item is a duplicate of the updated table |
| PlaylistImporter.SkipsPersist | app/musix/fetch_songs.py:150-200 | a duplicate stays a duplicate when the dictionaries only gain keys |
| PlaylistImporter.AllKnownInsertNothing | app/musix/fetch_songs.py:213-214 | when every item is a duplicate, nothing is inserted |
| PlaylistImporter.SecondImportAddsNothing | app/musix/fetch_songs.py:123-211 | importing the same playlist again on the table the first import produced adds nothing |
| PlaylistImporter.AddSongToDb | app/musix/fetch_songs.py:109-121 | an accepted insert appends the row with the YouTube id and no Spotify id; a failure changes nothing; the result reports which |
| PlaylistImporter.ImportItem | app/musix/fetch_songs.py:145-211 | one iteration appends the item's outcome and row, and advances the counter only on a successful insert |
| PlaylistImporter.AddNewItems | app/musix/fetch_songs.py:141-211 | the loop's log, count and appended rows are the week loop's over the item plans |
| PlaylistImporter.ImportPlaylist | app/musix/fetch_songs.py:123-211 | `main` appends exactly the rows of the import run and reports their number |

## Left out

- Network, tokens and clients: token fetches, HTTP and the Supabase, YouTube
  and Last.fm clients are not modelled. Their replies are inputs. For
  Last.fm, the model records which requests are made, but not their URLs.
- The Spotify token request (`getSpotifyAccessToken`) is reduced to its
  HTTP status.
- `.env` loading, the key checks at import time in `fetch_songs.py` and
  client construction are not modelled.
- Concurrency: requests are modelled one at a time. Two overlapping
  requests could both pass the rate limit; that is not modelled.
- Log and print text: the model keeps the kind of each outcome and not its
  wording. The `output` string of `fetchAndAddSongs` is not built, and the
  API key redaction in log lines is not modelled.
- Character handling:
  - `trim`, `strip`, `toLowerCase` and `lower` act on ASCII only (space,
    tab, line feed, carriage return, vertical tab and form feed; A-Z).
  - `\d` and `\s` are ASCII.
  - Unicode case mapping and whitespace are not modelled.
- Ordering: `order('week')` is modelled as code-point order on strings. The
  database's collation may differ.
- Week order past 99: string order on labels agrees with numeric order only
  below week 100 (`Weeks.WeekLabelOrder`, `Weeks.WeekLabelOrderBreaksAt100`).
  The newest song by string order is therefore not the latest week once
  week 100 is reached, and `getMaxWeek` then disagrees with the largest week
  (`SongStore.GetMaxWeekPast99`). The importers themselves use the numeric
  maximum of `getExistingSongs`.
- Numbers: integers are unbounded.
  - `parseInt` precision loss and `Date` arithmetic beyond integers are not
    modelled.
  - Timestamps are integer milliseconds.
  - ISO timestamp text is not modelled.
- JavaScript objects as dictionaries: prototype keys such as `"__proto__"`
  are not modelled; dictionaries are maps.
- Nullable columns: `song_name` and `artist` are taken as present strings.
- Python exceptions: a failing store read in `get_existing_songs`, or a
  failing YouTube request, aborts the script. The model only covers runs
  where those reads succeed. A failing insert is the modelled `False`
  result.
- Outer `catch` blocks:
  - A store read that throws is an input flag for the album-art and
    backfill handlers.
  - In the fetch-songs handler, the token and page failures are results of
    the sync.
  - The outer `catch` of the fetch-songs `GET`, and exceptions other than
    those, are not modelled.
- Regex corner case: the regexes' `$`, which also matches before a final
  newline, is modelled as end of string. Titles are taken to contain no
  newline in the clean-up lemmas.
- The missing-playlist-id branch of `GET` is dead code: the id always has a
  non-empty default (`FetchSongs.PlaylistId`). It is left out.
- `songExists` in `db.ts` is not used by the modelled routes and is not
  modelled.
- Repeat runs: `FetchSongs.SecondSyncAddsNothing` and
  `PlaylistImporter.SecondImportAddsNothing` compare two runs over the same
  playlist contents and video details. A playlist that changes between runs
  is outside those lemmas.
- TitleParsing.CleanSong, TitleParsing.CleanArtist,
  TitleParsing.CleanChannel and TitleParsing.StripTopic: their contracts
  state only a length bound. Their exact effect is stated by the lemmas
  beside them on the inputs those lemmas describe, not for every string.
- SongStore.SortByWeekDesc, YoutubeBackfill.BackfillIdempotent and
  AlbumArt.Get: rows with equal week labels keep their stored order. The
  database guarantees no order among them. With two rows under the top
  week and different Spotify ids, a later request may see the other row
  first, so the backfill would search again for that row.
- FetchSongs.PlaylistTracks: its own contract states only the failure
  case. The tracks returned on success are stated by
  `FetchSongs.PlaylistTracksMembers`.
- Text.FirstDigitRun: its contracts do not state that the run is the first
  and longest one in the label. `Weeks.NumberAfterText` states the value
  read for a digit-free prefix followed by digits, the form of every label
  the importers write.
