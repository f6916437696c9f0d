/**
 * How the YouTube importer (app/musix/fetch_songs.py) turns a video title
 * and its uploader channel into a song name and an artist: split the title
 * at the first separator it holds, strip a "[...]" prefix and a "(...)"
 * suffix from the song, strip "(...)", "[...]" and "- Topic" suffixes from
 * the artist, and fall back to the channel when no artist remains.
 *
 * Each regular-expression substitution of the importer is written out as
 * the string operation it performs; whitespace is the ASCII whitespace of
 * `Text.IsSpace`, and `.` matches any character but a line feed.
 */
module TitleParsing {
  import opened Wrappers
  import opened Text

  // ---------------------------------------------------------------------------
  // "- Topic" suffixes
  // ---------------------------------------------------------------------------

  predicate IsTopicWord(w: string) {
    w == "Topic" || w == "topic"
  }

  /**
   * `re.sub(r'\s*-\s*[Tt]opic\s*$', '', s)`: a trailing "-", "Topic" or
   * "topic" and the whitespace around them are removed, together with the
   * whitespace before the "-" (the match starts as far left as it can).
   */
  function StripTopic(s: string): (r: string)
    ensures |r| <= |s|
  {
    var u := TrimEnd(s);
    if |u| >= 5 && IsTopicWord(u[|u| - 5..]) then
      var v := TrimEnd(u[..|u| - 5]);
      if |v| >= 1 && v[|v| - 1] == '-' then TrimEnd(v[..|v| - 1]) else s
    else s
  }

  /** Any "- Topic" suffix is removed, with the whitespace in front of it. */
  lemma {:induction false} StripTopicRemovesSuffix(r: string, w1: string, w2: string, c: char, w3: string)
    requires AllSpace(w1) && AllSpace(w2) && AllSpace(w3) && (c == 'T' || c == 't')
    ensures StripTopic(r + w1 + "-" + w2 + [c] + "opic" + w3) == TrimEnd(r)
  {
    var dash := r + w1 + "-";
    var core := dash + w2 + [c] + "opic";
    TrimEndOfWord(core, w3);
    var u := TrimEnd(core + w3);
    SplitTopicWord(dash + w2, c);
    TrimEndOfWord(dash, w2);
    var v := TrimEnd(u[..|u| - 5]);
    assert v[..|v| - 1] == r + w1;
    TrimEndOfSpaceSuffix(r, w1);
  }

  /** Trailing whitespace after a text that ends in a non-space is exactly what `TrimEnd` removes. */
  lemma {:induction false} TrimEndOfWord(x: string, w: string)
    requires x != [] && !IsSpace(x[|x| - 1]) && AllSpace(w)
    ensures TrimEnd(x + w) == x
  {
    TrimEndOfSpaceSuffix(x, w);
    TrimEndNoTrailingSpace(x);
  }

  lemma {:induction false} SplitTopicWord(x: string, c: char)
    requires c == 'T' || c == 't'
    ensures var u := x + [c] + "opic"; |u| >= 5 && IsTopicWord(u[|u| - 5..]) && u[..|u| - 5] == x
  {
    var u := x + [c] + "opic";
    assert u[|u| - 5..] == [c] + "opic";
  }

  // ---------------------------------------------------------------------------
  // Bracketed prefixes and enclosed suffixes
  // ---------------------------------------------------------------------------

  /**
   * `re.sub(r'^\[.*?\]\s*', '', s)`: a leading "[", the text up to the first
   * "]" after it (which may not hold a line feed), that "]" and the
   * whitespace after it are removed.
   */
  function StripBracketPrefix(s: string): (r: string)
    ensures |r| <= |s|
  {
    if |s| > 0 && s[0] == '[' then
      var tag := BeforeFirst(s[1..], ']');
      if |tag| == |s| - 1 || '\n' in tag then s
      else TrimStart(s[|tag| + 2..])
    else s
  }

  /** A "[tag]" in front of a name is removed with the whitespace after it. */
  lemma {:induction false} StripBracketPrefixRemovesTag(tag: string, w: string, rest: string)
    requires ']' !in tag && '\n' !in tag && AllSpace(w)
    requires rest == [] || !IsSpace(rest[0])
    ensures StripBracketPrefix("[" + tag + "]" + w + rest) == rest
  {
    var s := "[" + tag + "]" + w + rest;
    assert s[1..] == tag + "]" + w + rest;
    var b := BeforeFirst(s[1..], ']');
    BeforeFirstOfPrefix(tag, "]" + w + rest, ']');
    assert tag + "]" + w + rest == tag + ("]" + w + rest);
    assert b == tag;
    assert s[|tag| + 2..] == w + rest;
    TrimStartOfSpacePrefix(w, rest);
    TrimStartNoLeadingSpace(rest);
  }

  /**
   * Where `^\[.*?\]` matches: `s` opens with "[" and a "]" follows with no
   * line feed between them.
   */
  predicate HasBracketPrefix(s: string) {
    |s| > 0 && s[0] == '[' && exists i :: 1 <= i < |s| && s[i] == ']' && '\n' !in s[1..i]
  }

  /** The name is left as it is exactly when the pattern does not match it; a match always shortens it. */
  lemma {:induction false} StripBracketPrefixUnchanged(s: string)
    ensures StripBracketPrefix(s) == s <==> !HasBracketPrefix(s)
    ensures HasBracketPrefix(s) ==> |StripBracketPrefix(s)| < |s|
  {
    if |s| > 0 && s[0] == '[' {
      var tag := BeforeFirst(s[1..], ']');
      BeforeFirstSpec(s[1..], ']');
      assert tag == s[1..|tag| + 1];
      if |tag| < |s| - 1 {
        assert s[|tag| + 1] == ']';
        if '\n' !in tag {
          assert s[1..|tag| + 1] == tag;
          assert HasBracketPrefix(s);
        } else {
          forall i | 1 <= i < |s| && s[i] == ']' ensures '\n' in s[1..i] {
            assert forall j :: 0 <= j < |tag| ==> s[j + 1] == tag[j];
            assert i - 1 >= |tag|;
            var j :| 0 <= j < |tag| && tag[j] == '\n';
            assert s[1..i][j] == '\n';
          }
        }
      } else {
        forall i | 1 <= i < |s| ensures s[i] != ']' {
          assert tag[i - 1] == s[i];
        }
      }
    }
  }

  /** `BeforeFirst` stops at the first `c`, so a prefix without `c` followed by `c` is found. */
  lemma {:induction false} BeforeFirstOfPrefix(a: string, b: string, c: char)
    requires c !in a && b != [] && b[0] == c
    ensures BeforeFirst(a + b, c) == a
  {
    var s := a + b;
    var r := BeforeFirst(s, c);
    BeforeFirstSpec(s, c);
    assert s[|a|] == c;
    assert r == s[..|a|] == a;
  }

  /**
   * The first position `k`, from `from` on, at which an enclosed suffix of
   * `u` can start: an `open` character with no line feed between it and the
   * last character of `u`.
   */
  function FirstOpen(u: string, open: char, from: nat): (o: Option<nat>)
    requires from < |u|
    ensures o.Some? ==> from <= o.value < |u| - 1
    decreases |u| - from
  {
    if from == |u| - 1 then None
    else if OpensSuffix(u, open, from) then Some(from)
    else FirstOpen(u, open, from + 1)
  }

  /** The search finds a position that opens the suffix, and finds none only when there is none. */
  lemma {:induction false} FirstOpenSpec(u: string, open: char, from: nat)
    requires from < |u|
    ensures var o := FirstOpen(u, open, from);
      (o.Some? ==> OpensSuffix(u, open, o.value)) &&
      (o.None? <==> forall j :: from <= j < |u| - 1 ==> !OpensSuffix(u, open, j))
    decreases |u| - from
  {
    if from < |u| - 1 && !OpensSuffix(u, open, from) {
      FirstOpenSpec(u, open, from + 1);
    }
  }

  /** Position `k` of `u` holds `open`, and no line feed follows it before the last character. */
  predicate OpensSuffix(u: string, open: char, k: nat)
    requires k < |u| - 1
  {
    u[k] == open && '\n' !in u[k + 1..|u| - 1]
  }

  /**
   * `re.sub(r'\s*\(.*?\)\s*$', '', s)` for `open`, `close` = "(", ")" (and
   * the same with "[", "]"): when `s` ends, up to whitespace, in `close`,
   * everything from the leftmost `open` that can start the suffix is
   * removed, with the whitespace before it.
   */
  function StripEnclosedSuffix(s: string, open: char, close: char): (r: string)
    ensures |r| <= |s|
  {
    var u := TrimEnd(s);
    if |u| >= 2 && u[|u| - 1] == close then
      match FirstOpen(u, open, 0)
      case None => s
      case Some(k) => TrimEnd(u[..k])
    else s
  }

  /**
   * Where `\s*\(.*?\)\s*$` matches: `s` ends, up to whitespace, in `close`,
   * and some `open` before that last character has no line feed after it.
   */
  predicate HasEnclosedSuffix(s: string, open: char, close: char) {
    var u := TrimEnd(s);
    |u| >= 2 && u[|u| - 1] == close && exists k :: 0 <= k < |u| - 1 && OpensSuffix(u, open, k)
  }

  /** The name is left as it is exactly when the pattern does not match it; a match always shortens it. */
  lemma {:induction false} StripEnclosedSuffixUnchanged(s: string, open: char, close: char)
    ensures StripEnclosedSuffix(s, open, close) == s <==> !HasEnclosedSuffix(s, open, close)
    ensures HasEnclosedSuffix(s, open, close) ==> |StripEnclosedSuffix(s, open, close)| < |s|
  {
    var u := TrimEnd(s);
    if |u| >= 2 && u[|u| - 1] == close {
      FirstOpenSpec(u, open, 0);
      match FirstOpen(u, open, 0)
      case None =>
      case Some(k) =>
        assert |TrimEnd(u[..k])| <= k < |u| <= |s|;
    }
  }

  /**
   * An enclosed suffix after a text without `open` is removed with the
   * whitespace around it; what is inside may be anything but a line feed.
   */
  lemma {:induction false} StripEnclosedSuffixRemoves(
    r: string, w1: string, open: char, inner: string, close: char, w2: string)
    requires open !in r && !IsSpace(open) && !IsSpace(close)
    requires '\n' !in inner && AllSpace(w1) && AllSpace(w2)
    ensures StripEnclosedSuffix(r + w1 + [open] + inner + [close] + w2, open, close) == TrimEnd(r)
  {
    var core := r + w1 + [open] + inner + [close];
    var s := core + w2;
    assert r + w1 + [open] + inner + [close] + w2 == s;
    TrimEndOfSpaceSuffix(core, w2);
    TrimEndNoTrailingSpace(core);
    var u := TrimEnd(s);
    assert u == core;
    var k := |r| + |w1|;
    assert u[k + 1..|u| - 1] == inner;
    assert OpensSuffix(u, open, k);
    forall j | 0 <= j < k ensures !OpensSuffix(u, open, j) {
      if j < |r| {
        assert u[j] == r[j];
      } else {
        assert u[j] == w1[j - |r|];
      }
    }
    FirstOpenFinds(u, open, 0, k);
    assert u[..k] == r + w1;
    TrimEndOfSpaceSuffix(r, w1);
  }

  lemma {:induction false} FirstOpenFinds(u: string, open: char, from: nat, k: nat)
    requires from <= k < |u| - 1 && OpensSuffix(u, open, k)
    requires forall j :: from <= j < k ==> !OpensSuffix(u, open, j)
    ensures FirstOpen(u, open, from) == Some(k)
    decreases k - from
  {
    if from < k {
      FirstOpenFinds(u, open, from + 1, k);
    }
  }

  // ---------------------------------------------------------------------------
  // Splitting the title
  // ---------------------------------------------------------------------------

  /** The separators tried, in this order: hyphen, en dash, em dash and bar, each between spaces. */
  const Separators: seq<string> := [" - ", " \U{2013} ", " \U{2014} ", " | "]

  /**
   * The song and artist a title splits into: at the first occurrence of the
   * first separator (in list order) the title contains, both parts trimmed;
   * a title with no separator is the song, and the channel is the artist.
   */
  function ParseTitle(title: string, channel: string): (string, string) {
    ParseFrom(title, channel, 0)
  }

  function ParseFrom(title: string, channel: string, k: nat): (p: (string, string))
    requires k <= |Separators|
    decreases |Separators| - k
  {
    if k == |Separators| then (title, channel)
    else
      var sep := Separators[k];
      match IndexOf(title, sep)
      case Some(i) => (Trim(title[..i]), Trim(title[i + |sep|..]))
      case None => ParseFrom(title, channel, k + 1)
  }

  /**
   * A title made of a left part, separator `k` and a right part splits into
   * the two parts, trimmed, when no earlier separator occurs in it and
   * separator `k` does not occur before the right position.
   */
  lemma {:induction false} ParseTitleSplits(left: string, k: nat, right: string, channel: string)
    requires k < |Separators|
    requires forall j :: 0 <= j < k ==> !Contains(left + Separators[k] + right, Separators[j])
    requires forall i: nat :: i < |left| ==> !OccursAt(left + Separators[k] + right, Separators[k], i)
    ensures ParseTitle(left + Separators[k] + right, channel) == (Trim(left), Trim(right))
  {
    var title := left + Separators[k] + right;
    var sep := Separators[k];
    assert OccursAt(title, sep, |left|) by {
      assert title[|left|..|left| + |sep|] == sep;
    }
    assert title[..|left|] == left;
    assert title[|left| + |sep|..] == right;
    IndexOfSpec(title, sep);
    ParseFromSkips(title, channel, 0, k);
  }

  lemma {:induction false} ParseFromSkips(title: string, channel: string, from: nat, k: nat)
    requires from <= k < |Separators|
    requires forall j :: from <= j < k ==> !Contains(title, Separators[j])
    ensures ParseFrom(title, channel, from) == ParseFrom(title, channel, k)
    decreases k - from
  {
    if from < k {
      assert !Contains(title, Separators[from]);
      IndexOfSpec(title, Separators[from]);
      ParseFromSkips(title, channel, from + 1, k);
    }
  }

  /** A title without any separator is taken whole as the song, with the channel as artist. */
  lemma {:induction false} ParseTitleWithoutSeparator(title: string, channel: string)
    requires forall j :: 0 <= j < |Separators| ==> !Contains(title, Separators[j])
    ensures ParseTitle(title, channel) == (title, channel)
  {
    ParseFromNone(title, channel, 0);
  }

  lemma {:induction false} ParseFromNone(title: string, channel: string, from: nat)
    requires from <= |Separators|
    requires forall j :: from <= j < |Separators| ==> !Contains(title, Separators[j])
    ensures ParseFrom(title, channel, from) == (title, channel)
    decreases |Separators| - from
  {
    if from < |Separators| {
      assert !Contains(title, Separators[from]);
      IndexOfSpec(title, Separators[from]);
      ParseFromNone(title, channel, from + 1);
    }
  }

  // ---------------------------------------------------------------------------
  // Clean-up and the channel fallback
  // ---------------------------------------------------------------------------

  /** The song name after clean-up: no "[...]" prefix, no "(...)" suffix, trimmed. */
  function CleanSong(song: string): (r: string)
    ensures |r| <= |song|
  {
    Trim(StripEnclosedSuffix(StripBracketPrefix(song), '(', ')'))
  }

  /** The artist after clean-up: no "(...)", "[...]" or "- Topic" suffix, trimmed. */
  function CleanArtist(artist: string): (r: string)
    ensures |r| <= |artist|
  {
    Trim(StripTopic(StripEnclosedSuffix(StripEnclosedSuffix(artist, '(', ')'), '[', ']')))
  }

  /** The uploader channel with a "- Topic" suffix removed, trimmed. */
  function CleanChannel(channel: string): (r: string)
    ensures |r| <= |channel|
  {
    Trim(StripTopic(channel))
  }

  /** An artist that is empty or "unknown" in any letter case carries no information. */
  predicate Uninformative(artist: string) {
    artist == "" || Lower(artist) == "unknown"
  }

  /**
   * The artist kept: the cleaned one, unless it is uninformative, in which
   * case the channel (already cleaned, and cleaned of a "- Topic" suffix
   * once more) takes its place.
   */
  function ResolveArtist(artist: string, actualChannel: string): (r: string)
    ensures !Uninformative(artist) ==> r == artist
    ensures Uninformative(artist) ==> r == CleanChannel(actualChannel)
  {
    if Uninformative(artist) then CleanChannel(actualChannel) else artist
  }

  /** The song name and artist the importer stores for a video. */
  datatype Names = Names(songName: string, artist: string)

  /** The whole pipeline for one video: channel clean-up, title split, song and artist clean-up, fallback. */
  function NamesOf(title: string, channelTitle: string): Names {
    var actualChannel := CleanChannel(channelTitle);
    var parts := ParseTitle(title, actualChannel);
    Names(CleanSong(parts.0), ResolveArtist(CleanArtist(parts.1), actualChannel))
  }

  /** An artist that is still empty or "unknown" after the fallback is the twice-cleaned channel. */
  lemma {:induction false} NamesOfFallback(title: string, channelTitle: string)
    ensures var n := NamesOf(title, channelTitle);
      Uninformative(n.artist) ==> n.artist == CleanChannel(CleanChannel(channelTitle))
  {
  }
}
