/**
 * The `musix_songs` table and its gateway (app/musix/db.ts): the rows kept
 * in memory, the insert and update operations, the sorted archive read, the
 * single-row maximum week, and the lookup index the sync job builds before
 * it walks the playlist.
 */
module SongStore {
  import opened Wrappers
  import opened Text
  import opened Weeks

  /** One row of `musix_songs`; the two ids are nullable columns. */
  datatype SongRow = SongRow(
    week: string,
    songName: string,
    artist: string,
    youtubeId: Option<string>,
    spotifyTrackId: Option<string>)

  /**
   * A lookup entry: the week, name and artist of a stored row and the
   * external id it was indexed with (a Spotify id in the TypeScript sync,
   * a YouTube id in the Python importer).
   */
  datatype Entry = Entry(week: string, songName: string, artist: string, id: Option<string>)

  /** What the sync job reads before walking the playlist. */
  datatype Index = Index(byId: map<string, Entry>, byNameArtist: map<string, Entry>, maxWeek: nat)

  const EmptyIndex := Index(map[], map[], 0)

  /** JavaScript truthiness of a nullable string column. */
  predicate Truthy(o: Option<string>) {
    o.Some? && o.value != ""
  }

  /** `value || null` for an optional string argument. */
  function NullIfEmpty(s: string): (o: Option<string>)
    ensures Truthy(o) <==> s != ""
    ensures o.Some? ==> o.value == s
  {
    if s == "" then None else Some(s)
  }

  /**
   * The duplicate key `lower(trim(name)) + "|" + lower(trim(artist))`: two
   * songs whose names and artists differ only in ASCII case or surrounding
   * whitespace share it.
   */
  function NormalizedKey(songName: string, artist: string): string {
    Trim(Lower(songName)) + "|" + Trim(Lower(artist))
  }

  function RowKey(r: SongRow): string {
    NormalizedKey(r.songName, r.artist)
  }

  lemma {:induction false} NormalizedKeyIgnoresCase(songName: string, artist: string)
    ensures NormalizedKey(Lower(songName), Lower(artist)) == NormalizedKey(songName, artist)
  {
    LowerIdempotent(songName);
    LowerIdempotent(artist);
  }

  lemma {:induction false} NormalizedKeyIgnoresPadding(a: string, songName: string, b: string, c: string, artist: string, d: string)
    requires AllSpace(a) && AllSpace(b) && AllSpace(c) && AllSpace(d)
    ensures NormalizedKey(a + songName + b, c + artist + d) == NormalizedKey(songName, artist)
  {
    LowerAppend(a + songName, b);
    LowerAppend(a, songName);
    LowerAppend(c + artist, d);
    LowerAppend(c, artist);
    LowerSpec(a);
    LowerSpec(b);
    LowerSpec(c);
    LowerSpec(d);
    TrimIgnoresPadding(Lower(a), Lower(songName), Lower(b));
    TrimIgnoresPadding(Lower(c), Lower(artist), Lower(d));
  }

  // ---------------------------------------------------------------------------
  // Index building (getExistingSongs)
  // ---------------------------------------------------------------------------

  function Max(a: nat, b: nat): nat {
    if a >= b then a else b
  }

  /** `maxWeek`: the largest week number among `rows`, 0 when there is none. */
  function MaxWeekOf(rows: seq<SongRow>): (m: nat)
    decreases |rows|
  {
    if rows == [] then 0
    else Max(MaxWeekOf(rows[..|rows| - 1]), WeekNumber(rows[|rows| - 1].week))
  }

  /** `maxWeek` bounds every row's week number and is one of them (or 0). */
  lemma {:induction false} MaxWeekOfSpec(rows: seq<SongRow>)
    ensures var m := MaxWeekOf(rows);
      (forall i :: 0 <= i < |rows| ==> WeekNumber(rows[i].week) <= m) &&
      (m == 0 || exists i :: 0 <= i < |rows| && WeekNumber(rows[i].week) == m)
    decreases |rows|
  {
    if rows != [] {
      var n := |rows| - 1;
      MaxWeekOfSpec(rows[..n]);
      assert forall i :: 0 <= i < n ==> rows[..n][i] == rows[i];
    }
  }

  /**
   * A dictionary filled by walking `rows` in order and assigning
   * `d[key(row)] := entry(row)` for every row that `keep` admits, so that a
   * later row overwrites an earlier one with the same key.
   */
  function LastWins<K>(rows: seq<SongRow>, keep: SongRow -> bool, key: SongRow -> K, entry: SongRow -> Entry): map<K, Entry>
    decreases |rows|
  {
    if rows == [] then map[]
    else
      var prev := LastWins(rows[..|rows| - 1], keep, key, entry);
      var r := rows[|rows| - 1];
      if keep(r) then prev[key(r) := entry(r)] else prev
  }

  /** Row `i` is admitted and no later admitted row has its key. */
  ghost predicate LastKept<K>(rows: seq<SongRow>, keep: SongRow -> bool, key: SongRow -> K, i: int)
    requires 0 <= i < |rows|
  {
    keep(rows[i]) && forall j :: i < j < |rows| && keep(rows[j]) ==> key(rows[j]) != key(rows[i])
  }

  /**
   * A last-wins dictionary holds exactly the keys of the admitted rows, and
   * each key maps to the entry of the last admitted row with that key.
   */
  lemma {:induction false} LastWinsSpec<K>(rows: seq<SongRow>, keep: SongRow -> bool, key: SongRow -> K, entry: SongRow -> Entry)
    ensures forall k :: k in LastWins(rows, keep, key, entry) <==>
      exists i :: 0 <= i < |rows| && keep(rows[i]) && key(rows[i]) == k
    ensures forall i :: 0 <= i < |rows| && LastKept(rows, keep, key, i) ==>
      key(rows[i]) in LastWins(rows, keep, key, entry) &&
      LastWins(rows, keep, key, entry)[key(rows[i])] == entry(rows[i])
    decreases |rows|
  {
    if rows != [] {
      var pre := rows[..|rows| - 1];
      var n := |rows| - 1;
      LastWinsSpec(pre, keep, key, entry);
      var m := LastWins(rows, keep, key, entry);
      var prev := LastWins(pre, keep, key, entry);
      assert m == if keep(rows[n]) then prev[key(rows[n]) := entry(rows[n])] else prev;
      forall k ensures k in m <==> exists i :: 0 <= i < |rows| && keep(rows[i]) && key(rows[i]) == k {
        if k in m && !(keep(rows[n]) && key(rows[n]) == k) {
          assert k in prev;
          var i :| 0 <= i < |pre| && keep(pre[i]) && key(pre[i]) == k;
          assert rows[i] == pre[i];
        }
        if exists i :: 0 <= i < |rows| && keep(rows[i]) && key(rows[i]) == k {
          var i :| 0 <= i < |rows| && keep(rows[i]) && key(rows[i]) == k;
          if i < n {
            assert pre[i] == rows[i];
          }
        }
      }
      forall i | 0 <= i < |rows| && LastKept(rows, keep, key, i)
        ensures key(rows[i]) in m && m[key(rows[i])] == entry(rows[i])
      {
        if i < n {
          assert pre[i] == rows[i];
          assert LastKept(pre, keep, key, i) by {
            forall j | i < j < |pre| && keep(pre[j]) ensures key(pre[j]) != key(pre[i]) {
              assert pre[j] == rows[j];
            }
          }
        }
      }
    }
  }

  predicate HasSpotifyId(r: SongRow) {
    Truthy(r.spotifyTrackId)
  }

  function SpotifyKey(r: SongRow): string {
    r.spotifyTrackId.GetOr("")
  }

  function SpotifyEntry(r: SongRow): Entry {
    Entry(r.week, r.songName, r.artist, r.spotifyTrackId)
  }

  /** `songsById`: rows with a truthy Spotify id, keyed by it, the last one winning. */
  function IdIndexOf(rows: seq<SongRow>): map<string, Entry> {
    LastWins(rows, HasSpotifyId, SpotifyKey, SpotifyEntry)
  }

  /** The entry stored under a row's name/artist key: its Spotify id only when truthy. */
  function NameEntry(r: SongRow): Entry {
    Entry(r.week, r.songName, r.artist, if Truthy(r.spotifyTrackId) then r.spotifyTrackId else None)
  }

  /**
   * A dictionary filled by walking `rows` in order and assigning
   * `d[key(row)] := NameEntry(row)` when the key is new or the row has a
   * truthy Spotify id, so that rows with ids are preferred.
   */
  function PreferringIds(rows: seq<SongRow>, key: SongRow -> string): (m: map<string, Entry>)
    ensures forall i :: 0 <= i < |rows| ==> key(rows[i]) in m
    ensures forall k :: k in m ==> exists i :: 0 <= i < |rows| && key(rows[i]) == k
    decreases |rows|
  {
    if rows == [] then map[]
    else
      var pre := rows[..|rows| - 1];
      var prev := PreferringIds(pre, key);
      var r := rows[|rows| - 1];
      assert forall i :: 0 <= i < |pre| ==> rows[i] == pre[i];
      if key(r) !in prev || Truthy(r.spotifyTrackId) then prev[key(r) := NameEntry(r)] else prev
  }

  /**
   * `songsByNameArtist`: every row under its normalised name/artist key; a
   * row replaces the stored entry when the key is new or when the row has a
   * Spotify id.
   */
  function NameIndexOf(rows: seq<SongRow>): map<string, Entry> {
    PreferringIds(rows, RowKey)
  }

  /** Row `i` has a Spotify id and no later row with its key has one. */
  ghost predicate LastWithIdForKey(rows: seq<SongRow>, key: SongRow -> string, i: int)
    requires 0 <= i < |rows|
  {
    Truthy(rows[i].spotifyTrackId) &&
    forall j :: i < j < |rows| && key(rows[j]) == key(rows[i]) ==> !Truthy(rows[j].spotifyTrackId)
  }

  /** Row `i` is the first row with its key, and no row with that key has a Spotify id. */
  ghost predicate FirstOfKeyWithoutIds(rows: seq<SongRow>, key: SongRow -> string, i: int)
    requires 0 <= i < |rows|
  {
    (forall j :: 0 <= j < i ==> key(rows[j]) != key(rows[i])) &&
    (forall j :: 0 <= j < |rows| && key(rows[j]) == key(rows[i]) ==> !Truthy(rows[j].spotifyTrackId))
  }

  /** One step of the preferring fill, as the loop performs it. */
  lemma {:induction false} PreferringIdsStep(rows: seq<SongRow>, key: SongRow -> string)
    requires rows != []
    ensures var prev := PreferringIds(rows[..|rows| - 1], key); var r := rows[|rows| - 1];
      PreferringIds(rows, key) ==
        if key(r) !in prev || Truthy(r.spotifyTrackId) then prev[key(r) := NameEntry(r)] else prev
  {
  }

  /**
   * The overwrite-preference rule, first half: a key that some row with a
   * Spotify id carries maps to the last such row.
   */
  lemma {:induction false} PreferringIdsLastWithId(rows: seq<SongRow>, key: SongRow -> string, i: nat)
    requires i < |rows| && LastWithIdForKey(rows, key, i)
    ensures PreferringIds(rows, key)[key(rows[i])] == NameEntry(rows[i])
    decreases |rows|
  {
    var n := |rows| - 1;
    var pre := rows[..n];
    PreferringIdsStep(rows, key);
    if i < n {
      assert pre[i] == rows[i];
      assert LastWithIdForKey(pre, key, i) by {
        forall j | i < j < |pre| && key(pre[j]) == key(pre[i])
          ensures !Truthy(pre[j].spotifyTrackId)
        {
          assert pre[j] == rows[j];
        }
      }
      PreferringIdsLastWithId(pre, key, i);
    }
  }

  /**
   * The overwrite-preference rule, second half: a key that no row with a
   * Spotify id carries maps to the first row with that key.
   */
  lemma {:induction false} PreferringIdsFirstWithout(rows: seq<SongRow>, key: SongRow -> string, i: nat)
    requires i < |rows| && FirstOfKeyWithoutIds(rows, key, i)
    ensures PreferringIds(rows, key)[key(rows[i])] == NameEntry(rows[i])
    decreases |rows|
  {
    var n := |rows| - 1;
    PreferringIdsStep(rows, key);
    if i < n {
      FirstOfKeyWithoutIdsPrefix(rows, key, i);
      PreferringIdsFirstWithout(rows[..n], key, i);
      assert rows[..n][i] == rows[i];
    } else {
      FirstKeyIsNew(rows, key, i);
    }
  }

  /** A key no earlier row carries is not yet in the dictionary when its first row is reached. */
  lemma {:induction false} FirstKeyIsNew(rows: seq<SongRow>, key: SongRow -> string, i: nat)
    requires i < |rows| && forall j :: 0 <= j < i ==> key(rows[j]) != key(rows[i])
    ensures key(rows[i]) !in PreferringIds(rows[..i], key)
  {
    var pre := rows[..i];
    forall j | 0 <= j < |pre| ensures key(pre[j]) != key(rows[i]) {
      assert pre[j] == rows[j];
    }
  }

  lemma {:induction false} FirstOfKeyWithoutIdsPrefix(rows: seq<SongRow>, key: SongRow -> string, i: nat)
    requires i < |rows| - 1 && FirstOfKeyWithoutIds(rows, key, i)
    ensures FirstOfKeyWithoutIds(rows[..|rows| - 1], key, i)
  {
    var pre := rows[..|rows| - 1];
    assert pre[i] == rows[i];
    forall j | 0 <= j < i ensures key(pre[j]) != key(pre[i]) {
      assert pre[j] == rows[j];
    }
    forall j | 0 <= j < |pre| && key(pre[j]) == key(pre[i])
      ensures !Truthy(pre[j].spotifyTrackId)
    {
      assert pre[j] == rows[j];
    }
  }

  /** The index `getExistingSongs` builds from a successful read of `rows`. */
  function ExistingIndex(rows: seq<SongRow>): Index {
    Index(IdIndexOf(rows), NameIndexOf(rows), MaxWeekOf(rows))
  }

  /**
   * The keys of the index only grow when rows are appended: a song known
   * before an insert is still known after it.
   */
  lemma {:induction false} IndexKeysGrow(rows: seq<SongRow>, extra: seq<SongRow>)
    ensures IdIndexOf(rows).Keys <= IdIndexOf(rows + extra).Keys
    ensures NameIndexOf(rows).Keys <= NameIndexOf(rows + extra).Keys
  {
    var all := rows + extra;
    LastWinsSpec(rows, HasSpotifyId, SpotifyKey, SpotifyEntry);
    LastWinsSpec(all, HasSpotifyId, SpotifyKey, SpotifyEntry);
    forall k | k in IdIndexOf(rows) ensures k in IdIndexOf(all) {
      var i :| 0 <= i < |rows| && HasSpotifyId(rows[i]) && SpotifyKey(rows[i]) == k;
      assert all[i] == rows[i];
    }
    forall k | k in PreferringIds(rows, RowKey) ensures k in PreferringIds(all, RowKey) {
      var i :| 0 <= i < |rows| && RowKey(rows[i]) == k;
      assert all[i] == rows[i];
    }
  }

  // ---------------------------------------------------------------------------
  // The archive read (getArchivedSongs) and the single-row maximum (getMaxWeek)
  // ---------------------------------------------------------------------------

  /** Rows ordered by the `week` string, greatest first. */
  ghost predicate SortedByWeekDesc(s: seq<SongRow>) {
    forall i, j :: 0 <= i < j < |s| ==> StrLe(s[j].week, s[i].week)
  }

  function InsertByWeekDesc(r: SongRow, s: seq<SongRow>): (t: seq<SongRow>)
    requires SortedByWeekDesc(s)
    ensures SortedByWeekDesc(t)
    ensures multiset(t) == multiset(s) + multiset{r}
    decreases |s|
  {
    if s == [] || StrLe(s[0].week, r.week) then
      InsertAtHeadSorted(r, s);
      [r] + s
    else
      var rest := InsertByWeekDesc(r, s[1..]);
      InsertBehindHeadSorted(r, s, rest);
      assert s == [s[0]] + s[1..];
      [s[0]] + rest
  }

  lemma {:induction false} InsertAtHeadSorted(r: SongRow, s: seq<SongRow>)
    requires SortedByWeekDesc(s)
    requires s == [] || StrLe(s[0].week, r.week)
    ensures SortedByWeekDesc([r] + s)
  {
    if s != [] {
      SortedHead(s);
      AllBelowHead(r, s);
    }
    PrependSorted(r, s);
  }

  lemma {:induction false} InsertBehindHeadSorted(r: SongRow, s: seq<SongRow>, rest: seq<SongRow>)
    requires SortedByWeekDesc(s) && s != [] && !StrLe(s[0].week, r.week)
    requires SortedByWeekDesc(rest) && multiset(rest) == multiset(s[1..]) + multiset{r}
    ensures SortedByWeekDesc([s[0]] + rest)
  {
    StrLeTotal(s[0].week, r.week);
    SortedHead(s);
    InsertedBelow(s[0], s[1..], r, rest);
    PrependSorted(s[0], rest);
  }

  /** In rows sorted greatest first, no later row sorts after the first. */
  lemma {:induction false} SortedHead(s: seq<SongRow>)
    requires SortedByWeekDesc(s) && s != []
    ensures forall x :: x in s[1..] ==> StrLe(x.week, s[0].week)
  {
    forall x | x in s[1..] ensures StrLe(x.week, s[0].week) {
      var j :| 0 <= j < |s[1..]| && s[1..][j] == x;
      assert s[j + 1] == x;
    }
  }

  /** A row that sorts after the first row of sorted rows sorts after all of them. */
  lemma {:induction false} AllBelowHead(r: SongRow, s: seq<SongRow>)
    requires s != [] && StrLe(s[0].week, r.week)
    requires forall x :: x in s[1..] ==> StrLe(x.week, s[0].week)
    ensures forall x :: x in s ==> StrLe(x.week, r.week)
  {
    forall x | x in s ensures StrLe(x.week, r.week) {
      if x != s[0] {
        assert s == [s[0]] + s[1..];
        assert x in s[1..];
        StrLeTransitive(x.week, s[0].week, r.week);
      }
    }
  }

  /** Putting first a row that sorts after all sorted rows keeps them sorted. */
  lemma {:induction false} PrependSorted(r: SongRow, s: seq<SongRow>)
    requires SortedByWeekDesc(s)
    requires forall x :: x in s ==> StrLe(x.week, r.week)
    ensures SortedByWeekDesc([r] + s)
  {
    var t := [r] + s;
    forall i, j | 0 <= i < j < |t| ensures StrLe(t[j].week, t[i].week) {
      assert t[j] == s[j - 1];
      if i == 0 {
        assert s[j - 1] in s;
      } else {
        assert t[i] == s[i - 1];
      }
    }
  }

  /** Inserting a row that sorts before `h` among rows that do keeps every row before `h`. */
  lemma {:induction false} InsertedBelow(h: SongRow, tail: seq<SongRow>, r: SongRow, rest: seq<SongRow>)
    requires forall x :: x in tail ==> StrLe(x.week, h.week)
    requires StrLe(r.week, h.week)
    requires multiset(rest) == multiset(tail) + multiset{r}
    ensures forall x :: x in rest ==> StrLe(x.week, h.week)
  {
    forall x | x in rest ensures StrLe(x.week, h.week) {
      assert x in multiset(rest);
      if x != r {
        assert x in multiset(tail);
      }
    }
  }

  /**
   * `order('week', { ascending: false })`: the rows sorted by the `week`
   * string, greatest first. The database leaves rows with equal weeks in no
   * particular order; this model fixes one, keeping their stored order.
   */
  function SortByWeekDesc(rows: seq<SongRow>): (s: seq<SongRow>)
    ensures SortedByWeekDesc(s)
    ensures multiset(s) == multiset(rows)
    decreases |rows|
  {
    if rows == [] then []
    else
      assert rows == [rows[0]] + rows[1..];
      InsertByWeekDesc(rows[0], SortByWeekDesc(rows[1..]))
  }

  /**
   * `getArchivedSongs`: every row, greatest `week` string first; a failed
   * read yields the empty list. (The camel-case renaming of the columns is
   * not visible in this model: an archived song is a row.)
   */
  function ArchivedSongs(rows: seq<SongRow>, readFails: bool): (songs: seq<SongRow>)
    ensures readFails ==> songs == []
    ensures !readFails ==> multiset(songs) == multiset(rows) && SortedByWeekDesc(songs)
  {
    if readFails then [] else SortByWeekDesc(rows)
  }

  /** The first archived song has the greatest `week` string of all rows. */
  lemma {:induction false} LatestHasGreatestWeek(rows: seq<SongRow>)
    requires rows != []
    ensures ArchivedSongs(rows, false) != []
    ensures ArchivedSongs(rows, false)[0] in rows
    ensures forall r :: r in rows ==> StrLe(r.week, ArchivedSongs(rows, false)[0].week)
  {
    var s := ArchivedSongs(rows, false);
    assert |s| == |rows| by {
      assert |multiset(s)| == |multiset(rows)|;
    }
    assert s[0] in multiset(rows);
    forall r | r in rows ensures StrLe(r.week, s[0].week) {
      assert r in multiset(s);
      var j :| 0 <= j < |s| && s[j] == r;
      if j == 0 {
        StrLeTotal(r.week, r.week);
      }
    }
  }

  /**
   * `getMaxWeek`: the week of the first row in descending `week` order, read
   * by removing every non-digit; 0 when the read fails or the table is empty.
   */
  function GetMaxWeek(rows: seq<SongRow>, readFails: bool): nat {
    var songs := ArchivedSongs(rows, readFails);
    if songs == [] then 0 else AllDigitsNumber(songs[0].week)
  }

  /** Every row's week is the label of a week below 100. */
  ghost predicate LabelledBelow100(rows: seq<SongRow>) {
    forall r :: r in rows ==> exists n: nat :: n < 100 && r.week == WeekLabel(n)
  }

  /** Of two labels below week 100, the one that sorts later has the larger number. */
  lemma {:induction false} LabelNumbersFollowOrder(x: string, y: string)
    requires exists a: nat :: a < 100 && x == WeekLabel(a)
    requires exists b: nat :: b < 100 && y == WeekLabel(b)
    requires StrLe(x, y)
    ensures WeekNumber(x) <= WeekNumber(y)
    ensures AllDigitsNumber(y) == WeekNumber(y)
  {
    var a: nat :| a < 100 && x == WeekLabel(a);
    var b: nat :| b < 100 && y == WeekLabel(b);
    WeekLabelRoundTrip(a);
    WeekLabelRoundTrip(b);
    WeekLabelAllDigits(b);
    WeekLabelOrder(a, b);
  }

  /**
   * While every label is below week 100, the single-row maximum agrees
   * with the maximum the index builder computes over all rows.
   */
  lemma {:induction false} GetMaxWeekBelow100(rows: seq<SongRow>)
    requires LabelledBelow100(rows)
    ensures GetMaxWeek(rows, false) == MaxWeekOf(rows)
  {
    if rows != [] {
      LatestHasGreatestWeek(rows);
      var top := ArchivedSongs(rows, false)[0];
      var m := MaxWeekOf(rows);
      MaxWeekOfSpec(rows);
      assert GetMaxWeek(rows, false) == AllDigitsNumber(top.week);
      StrLeTotal(top.week, top.week);
      LabelNumbersFollowOrder(top.week, top.week);
      var i :| 0 <= i < |rows| && rows[i] == top;
      assert WeekNumber(top.week) <= m;
      if m != 0 {
        var k :| 0 <= k < |rows| && WeekNumber(rows[k].week) == m;
        assert rows[k] in rows;
        LabelNumbersFollowOrder(rows[k].week, top.week);
      }
    }
  }

  /**
   * From week 100 on the two readings part: with rows for weeks 99 and 100
   * the single-row maximum is 99 while the index builder finds 100.
   */
  lemma {:induction false} GetMaxWeekPast99(r99: SongRow, r100: SongRow)
    requires r99.week == WeekLabel(99) && r100.week == WeekLabel(100)
    ensures GetMaxWeek([r99, r100], false) == 99
    ensures MaxWeekOf([r99, r100]) == 100
  {
    WeekLabelOrderBreaksAt100();
    WeekLabelAllDigits(99);
    WeekLabelRoundTrip(99);
    WeekLabelRoundTrip(100);
    SortTwo(r99, r100);
    assert [r99, r100][..1] == [r99];
    assert [r99][..0] == [];
    assert MaxWeekOf([r99]) == 99;
  }

  /** Two rows already in descending week order are left as they are. */
  lemma {:induction false} SortTwo(a: SongRow, b: SongRow)
    requires StrLe(b.week, a.week)
    ensures SortByWeekDesc([a, b]) == [a, b]
  {
    assert [b][1..] == [];
    assert SortByWeekDesc([b]) == InsertByWeekDesc(b, []) == [b];
    assert [a, b][1..] == [b];
    assert SortByWeekDesc([a, b]) == InsertByWeekDesc(a, [b]);
  }

  // ---------------------------------------------------------------------------
  // In-place updates (updateSongYoutubeId)
  // ---------------------------------------------------------------------------

  /** The rows after `update({youtube_id}).eq('spotify_track_id', id)`. */
  function WithYoutubeId(rows: seq<SongRow>, spotifyTrackId: string, youtubeId: string): (s: seq<SongRow>)
    ensures |s| == |rows|
    ensures forall i :: 0 <= i < |rows| && rows[i].spotifyTrackId == Some(spotifyTrackId) ==>
      s[i] == rows[i].(youtubeId := Some(youtubeId))
    ensures forall i :: 0 <= i < |rows| && rows[i].spotifyTrackId != Some(spotifyTrackId) ==> s[i] == rows[i]
    decreases |rows|
  {
    if rows == [] then []
    else
      var r := rows[0];
      var r' := if r.spotifyTrackId == Some(spotifyTrackId) then r.(youtubeId := Some(youtubeId)) else r;
      [r'] + WithYoutubeId(rows[1..], spotifyTrackId, youtubeId)
  }

  /** Setting a YouTube id leaves every `week` in place, so the archive order is unchanged. */
  lemma {:induction false} SortCommutesWithYoutubeId(rows: seq<SongRow>, spotifyTrackId: string, youtubeId: string)
    ensures SortByWeekDesc(WithYoutubeId(rows, spotifyTrackId, youtubeId)) ==
      WithYoutubeId(SortByWeekDesc(rows), spotifyTrackId, youtubeId)
    decreases |rows|
  {
    if rows != [] {
      var w := WithYoutubeId(rows, spotifyTrackId, youtubeId);
      assert w[1..] == WithYoutubeId(rows[1..], spotifyTrackId, youtubeId);
      SortCommutesWithYoutubeId(rows[1..], spotifyTrackId, youtubeId);
      InsertCommutesWithYoutubeId(rows[0], SortByWeekDesc(rows[1..]), spotifyTrackId, youtubeId);
    }
  }

  /** Setting a YouTube id keeps a sorted table sorted, since no week changes. */
  lemma {:induction false} WithYoutubeIdKeepsOrder(s: seq<SongRow>, spotifyTrackId: string, youtubeId: string)
    requires SortedByWeekDesc(s)
    ensures SortedByWeekDesc(WithYoutubeId(s, spotifyTrackId, youtubeId))
  {
    var f := WithYoutubeId(s, spotifyTrackId, youtubeId);
    assert forall i :: 0 <= i < |s| ==> f[i].week == s[i].week;
  }

  lemma {:induction false} InsertCommutesWithYoutubeId(r: SongRow, s: seq<SongRow>, spotifyTrackId: string, youtubeId: string)
    requires SortedByWeekDesc(s)
    ensures SortedByWeekDesc(WithYoutubeId(s, spotifyTrackId, youtubeId))
    ensures InsertByWeekDesc(WithYoutubeId([r], spotifyTrackId, youtubeId)[0], WithYoutubeId(s, spotifyTrackId, youtubeId)) ==
      WithYoutubeId(InsertByWeekDesc(r, s), spotifyTrackId, youtubeId)
    decreases |s|
  {
    WithYoutubeIdKeepsOrder(s, spotifyTrackId, youtubeId);
    if s == [] || StrLe(s[0].week, r.week) {
      InsertHeadCommutes(r, s, spotifyTrackId, youtubeId);
    } else {
      SortedTail(s);
      InsertCommutesWithYoutubeId(r, s[1..], spotifyTrackId, youtubeId);
      InsertBehindCommutes(r, s, spotifyTrackId, youtubeId);
    }
  }

  lemma {:induction false} SortedTail(s: seq<SongRow>)
    requires SortedByWeekDesc(s) && s != []
    ensures SortedByWeekDesc(s[1..])
  {
    forall i, j | 0 <= i < j < |s| - 1 ensures StrLe(s[1..][j].week, s[1..][i].week) {
      assert s[1..][j] == s[j + 1] && s[1..][i] == s[i + 1];
    }
  }

  lemma {:induction false} InsertHeadCommutes(r: SongRow, s: seq<SongRow>, spotifyTrackId: string, youtubeId: string)
    requires SortedByWeekDesc(s) && SortedByWeekDesc(WithYoutubeId(s, spotifyTrackId, youtubeId))
    requires s == [] || StrLe(s[0].week, r.week)
    ensures InsertByWeekDesc(WithYoutubeId([r], spotifyTrackId, youtubeId)[0], WithYoutubeId(s, spotifyTrackId, youtubeId)) ==
      WithYoutubeId(InsertByWeekDesc(r, s), spotifyTrackId, youtubeId)
  {
    var f := WithYoutubeId(s, spotifyTrackId, youtubeId);
    var fr := WithYoutubeId([r], spotifyTrackId, youtubeId)[0];
    assert fr.week == r.week;
    assert s != [] ==> f[0].week == s[0].week;
    assert InsertByWeekDesc(fr, f) == [fr] + f;
    assert InsertByWeekDesc(r, s) == [r] + s;
    assert ([r] + s)[1..] == s;
  }

  lemma {:induction false} InsertBehindCommutes(r: SongRow, s: seq<SongRow>, spotifyTrackId: string, youtubeId: string)
    requires SortedByWeekDesc(s) && SortedByWeekDesc(WithYoutubeId(s, spotifyTrackId, youtubeId))
    requires s != [] && !StrLe(s[0].week, r.week)
    requires SortedByWeekDesc(s[1..]) && SortedByWeekDesc(WithYoutubeId(s[1..], spotifyTrackId, youtubeId))
    requires InsertByWeekDesc(WithYoutubeId([r], spotifyTrackId, youtubeId)[0], WithYoutubeId(s[1..], spotifyTrackId, youtubeId)) ==
      WithYoutubeId(InsertByWeekDesc(r, s[1..]), spotifyTrackId, youtubeId)
    ensures InsertByWeekDesc(WithYoutubeId([r], spotifyTrackId, youtubeId)[0], WithYoutubeId(s, spotifyTrackId, youtubeId)) ==
      WithYoutubeId(InsertByWeekDesc(r, s), spotifyTrackId, youtubeId)
  {
    var f := WithYoutubeId(s, spotifyTrackId, youtubeId);
    var fr := WithYoutubeId([r], spotifyTrackId, youtubeId)[0];
    assert fr.week == r.week && f[0].week == s[0].week;
    assert f[1..] == WithYoutubeId(s[1..], spotifyTrackId, youtubeId);
    var ins := InsertByWeekDesc(r, s[1..]);
    assert InsertByWeekDesc(r, s) == [s[0]] + ins;
    assert InsertByWeekDesc(fr, f) == [f[0]] + InsertByWeekDesc(fr, f[1..]);
    assert ([s[0]] + ins)[1..] == ins;
  }

  /** Extending the rows by one extends each part of the index by one loop step. */
  lemma {:induction false} IdIndexStep(rows: seq<SongRow>, i: nat)
    requires i < |rows|
    ensures var r := rows[i]; var ids := IdIndexOf(rows[..i]);
      IdIndexOf(rows[..i + 1]) == if Truthy(r.spotifyTrackId) then ids[r.spotifyTrackId.value := SpotifyEntry(r)] else ids
  {
    var t := rows[..i + 1];
    assert t[..i] == rows[..i] && t[i] == rows[i];
  }

  lemma {:induction false} NameIndexStep(rows: seq<SongRow>, i: nat)
    requires i < |rows|
    ensures var r := rows[i]; var names := NameIndexOf(rows[..i]);
      var key := NormalizedKey(r.songName, r.artist);
      NameIndexOf(rows[..i + 1]) ==
        if key !in names || Truthy(r.spotifyTrackId) then names[key := NameEntry(r)] else names
  {
    var t := rows[..i + 1];
    assert t[..i] == rows[..i] && t[i] == rows[i];
    PreferringIdsStep(t, RowKey);
  }

  lemma {:induction false} MaxWeekStep(rows: seq<SongRow>, i: nat)
    requires i < |rows|
    ensures MaxWeekOf(rows[..i + 1]) == Max(MaxWeekOf(rows[..i]), WeekNumber(rows[i].week))
  {
    var t := rows[..i + 1];
    assert t[..i] == rows[..i] && t[i] == rows[i];
  }

  // ---------------------------------------------------------------------------
  // The table
  // ---------------------------------------------------------------------------

  /** The `musix_songs` table, held in memory; a store error is an input. */
  class SongTable {
    var rows: seq<SongRow>

    constructor (initial: seq<SongRow>)
      ensures rows == initial
    {
      rows := initial;
    }

    /**
     * `addSong`: insert one row, storing an empty YouTube or Spotify id as
     * null; `accepted` is whether the store accepts the insert, and the
     * result reports it.
     */
    method AddSong(week: string, songName: string, artist: string, youtubeId: string, spotifyTrackId: string, accepted: bool)
      returns (ok: bool)
      modifies this
      ensures ok == accepted
      ensures ok ==> rows == old(rows) + [SongRow(week, songName, artist, NullIfEmpty(youtubeId), NullIfEmpty(spotifyTrackId))]
      ensures !ok ==> rows == old(rows)
    {
      if accepted {
        rows := rows + [SongRow(week, songName, artist, NullIfEmpty(youtubeId), NullIfEmpty(spotifyTrackId))];
      }
      ok := accepted;
    }

    /**
     * `updateSongYoutubeId`: set `youtube_id` on every row whose Spotify id
     * equals the argument and change nothing else; a store error changes
     * nothing and yields false.
     */
    method UpdateSongYoutubeId(spotifyTrackId: string, youtubeId: string, accepted: bool) returns (ok: bool)
      modifies this
      ensures ok == accepted
      ensures ok ==> rows == WithYoutubeId(old(rows), spotifyTrackId, youtubeId)
      ensures !ok ==> rows == old(rows)
    {
      ok := accepted;
      if accepted {
        var i := 0;
        ghost var before := rows;
        while i < |rows|
          invariant |rows| == |before| && 0 <= i <= |rows|
          invariant forall k :: 0 <= k < i && before[k].spotifyTrackId == Some(spotifyTrackId) ==>
            rows[k] == before[k].(youtubeId := Some(youtubeId))
          invariant forall k :: 0 <= k < |rows| && (k >= i || before[k].spotifyTrackId != Some(spotifyTrackId)) ==>
            rows[k] == before[k]
        {
          if rows[i].spotifyTrackId == Some(spotifyTrackId) {
            rows := rows[i := rows[i].(youtubeId := Some(youtubeId))];
          }
          i := i + 1;
        }
        assert rows == WithYoutubeId(before, spotifyTrackId, youtubeId);
      }
    }

    /**
     * `getExistingSongs`: one pass over the rows fills the two dictionaries
     * and the maximum week; a failed read yields empty dictionaries and 0.
     */
    method GetExistingSongs(readFails: bool) returns (idx: Index)
      ensures readFails ==> idx == EmptyIndex
      ensures !readFails ==> idx == ExistingIndex(rows)
    {
      if readFails {
        return EmptyIndex;
      }
      var data := rows;
      var songsById: map<string, Entry> := map[];
      var songsByNameArtist: map<string, Entry> := map[];
      var maxWeek: nat := 0;
      assert data[..0] == [];
      for i := 0 to |data|
        invariant songsById == IdIndexOf(data[..i])
        invariant songsByNameArtist == NameIndexOf(data[..i])
        invariant maxWeek == MaxWeekOf(data[..i])
      {
        var song := data[i];
        if Truthy(song.spotifyTrackId) {
          songsById := songsById[song.spotifyTrackId.value := SpotifyEntry(song)];
        }
        IdIndexStep(data, i);
        var normalizedKey := NormalizedKey(song.songName, song.artist);
        if normalizedKey !in songsByNameArtist || Truthy(song.spotifyTrackId) {
          songsByNameArtist := songsByNameArtist[normalizedKey := NameEntry(song)];
        }
        NameIndexStep(data, i);
        var weekNum := WeekNumber(song.week);
        maxWeek := Max(maxWeek, weekNum);
        MaxWeekStep(data, i);
      }
      assert data[..|data|] == data;
      idx := Index(songsById, songsByNameArtist, maxWeek);
    }
  }
}
