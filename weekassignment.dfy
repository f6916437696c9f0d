/**
 * The week-assignment loop shared by the Spotify sync (fetchAndAddSongs)
 * and the YouTube importer (main in fetch_songs.py).
 *
 * Both loops look each playlist entry up in lookup maps that are built once
 * before the loop and never updated inside it, so what happens to an entry
 * (skip it, or try to insert a given row) depends on the entry and the maps
 * alone: that decision is a `Plan`. The loop then walks the plans in order
 * with a counter that starts at `maxWeek + 1`, labels each insert it tries
 * with the counter, and advances the counter only when the insert succeeds.
 */
module WeekAssignment {
  import opened Wrappers
  import opened SongStore

  /** What the loop does with one playlist entry. */
  datatype Plan =
    | SkipById(id: string)
    | SkipByKey(existing: Entry)
    | Insert(songName: string, artist: string, youtubeId: Option<string>, spotifyTrackId: Option<string>)

  /** What the loop reports for one playlist entry. */
  datatype Outcome =
    | SkippedById(id: string)
    | SkippedByKey(existing: Entry)
    | Added(week: string)
    | AddFailed

  /** The log, the rows inserted in order, and the counter after the loop. */
  datatype Run = Run(log: seq<Outcome>, inserted: seq<SongRow>, nextWeek: nat)

  /** The row an insert plan stores under `week`. */
  function RowOf(p: Plan, week: string): (r: SongRow)
    requires p.Insert?
    ensures r.week == week && r.songName == p.songName && r.artist == p.artist
    ensures r.youtubeId == p.youtubeId && r.spotifyTrackId == p.spotifyTrackId
  {
    SongRow(week, p.songName, p.artist, p.youtubeId, p.spotifyTrackId)
  }

  /**
   * The plans of a list of playlist entries, each decided on its own by
   * `planOf`: the lookup maps behind `planOf` are fixed for the whole loop.
   */
  function PlanAll<T>(entries: seq<T>, planOf: T -> Plan): (plans: seq<Plan>)
    ensures |plans| == |entries|
    decreases |entries|
  {
    if entries == [] then []
    else
      var n := |entries| - 1;
      PlanAll(entries[..n], planOf) + [planOf(entries[n])]
  }

  /** The plan at position `i` is the plan of the entry there. */
  lemma {:induction false} PlanAllAt<T>(entries: seq<T>, planOf: T -> Plan, i: nat)
    requires i < |entries|
    ensures PlanAll(entries, planOf)[i] == planOf(entries[i])
    decreases |entries|
  {
    var n := |entries| - 1;
    if i < n {
      assert entries[..n][i] == entries[i];
      PlanAllAt(entries[..n], planOf, i);
    }
  }

  /** The insert plans, in order, whose insert the store accepts (`failures` lists the rejected positions). */
  function Accepted(plans: seq<Plan>, failures: set<nat>): (acc: seq<Plan>)
    ensures |acc| <= |plans|
    ensures forall p :: p in acc ==> p.Insert?
    decreases |plans|
  {
    if plans == [] then []
    else
      var n := |plans| - 1;
      Accepted(plans[..n], failures) + (if plans[n].Insert? && n !in failures then [plans[n]] else [])
  }

  /** The loop: entries are visited in playlist order. */
  function Assign(plans: seq<Plan>, failures: set<nat>, week0: nat, labelOf: nat -> string): (run: Run)
    ensures |run.log| == |plans|
    ensures run.nextWeek == week0 + |run.inserted|
    ensures |run.inserted| == |Accepted(plans, failures)|
    decreases |plans|
  {
    if plans == [] then Run([], [], week0)
    else
      var n := |plans| - 1;
      var prev := Assign(plans[..n], failures, week0, labelOf);
      Step(prev, plans[n], n, failures, labelOf)
  }

  /**
   * The k-th inserted row is the k-th accepted insert labelled with
   * `labelOf(week0 + k)`: the inserted rows are exactly the accepted insert
   * plans, in order, numbered contiguously from `week0`.
   */
  lemma {:induction false} AssignInserted(plans: seq<Plan>, failures: set<nat>, week0: nat, labelOf: nat -> string, k: nat)
    requires k < |Assign(plans, failures, week0, labelOf).inserted|
    ensures Assign(plans, failures, week0, labelOf).inserted[k] ==
      RowOf(Accepted(plans, failures)[k], labelOf(week0 + k))
    decreases |plans|
  {
    var n := |plans| - 1;
    var prev := Assign(plans[..n], failures, week0, labelOf);
    if k < |prev.inserted| {
      AssignInserted(plans[..n], failures, week0, labelOf, k);
    }
  }

  /** One iteration of the loop body, on the entry at position `n`. */
  function Step(prev: Run, p: Plan, n: nat, failures: set<nat>, labelOf: nat -> string): (next: Run)
    ensures |next.log| == |prev.log| + 1
  {
    match p
    case SkipById(id) => Run(prev.log + [SkippedById(id)], prev.inserted, prev.nextWeek)
    case SkipByKey(e) => Run(prev.log + [SkippedByKey(e)], prev.inserted, prev.nextWeek)
    case Insert(_, _, _, _) =>
      if n in failures then Run(prev.log + [AddFailed], prev.inserted, prev.nextWeek)
      else
        var week := labelOf(prev.nextWeek);
        Run(prev.log + [Added(week)], prev.inserted + [RowOf(p, week)], prev.nextWeek + 1)
  }

  /** When no insert fails, every insert plan is accepted. */
  lemma {:induction false} AllAccepted(plans: seq<Plan>)
    requires forall i :: 0 <= i < |plans| ==> plans[i].Insert?
    ensures Accepted(plans, {}) == plans
    decreases |plans|
  {
    if plans != [] {
      AllAccepted(plans[..|plans| - 1]);
      assert plans[..|plans| - 1] + [plans[|plans| - 1]] == plans;
    }
  }

  /**
   * When every plan is an insert and none fails, the loop inserts one row
   * per plan, the k-th labelled with `labelOf(week0 + k)`.
   */
  lemma {:induction false} AllInsertsNumbered(plans: seq<Plan>, week0: nat, labelOf: nat -> string, k: nat)
    requires forall i :: 0 <= i < |plans| ==> plans[i].Insert?
    requires k < |plans|
    ensures |Assign(plans, {}, week0, labelOf).inserted| == |plans|
    ensures Assign(plans, {}, week0, labelOf).inserted[k] == RowOf(plans[k], labelOf(week0 + k))
  {
    AllAccepted(plans);
    AssignInserted(plans, {}, week0, labelOf, k);
  }

  /** The loop after `i + 1` entries is one step past the loop after `i` entries. */
  lemma {:induction false} AssignStep(plans: seq<Plan>, failures: set<nat>, week0: nat, labelOf: nat -> string, i: nat)
    requires i < |plans|
    ensures Assign(plans[..i + 1], failures, week0, labelOf) ==
      Step(Assign(plans[..i], failures, week0, labelOf), plans[i], i, failures, labelOf)
  {
    var pre := plans[..i + 1];
    assert pre[..i] == plans[..i];
    assert pre[i] == plans[i];
  }

  /** Every insert plan at a position the store accepts is among the accepted plans. */
  lemma {:induction false} AcceptedContains(plans: seq<Plan>, failures: set<nat>, i: nat)
    requires i < |plans| && plans[i].Insert? && i !in failures
    ensures plans[i] in Accepted(plans, failures)
    decreases |plans|
  {
    var n := |plans| - 1;
    if i < n {
      assert plans[..n][i] == plans[i];
      AcceptedContains(plans[..n], failures, i);
    }
  }

  /** Running the loop on a prefix of the plans yields a prefix of the log. */
  lemma {:induction false} AssignPrefix(plans: seq<Plan>, failures: set<nat>, week0: nat, labelOf: nat -> string, m: nat)
    requires m <= |plans|
    ensures Assign(plans[..m], failures, week0, labelOf).log == Assign(plans, failures, week0, labelOf).log[..m]
    ensures Assign(plans[..m], failures, week0, labelOf).inserted <= Assign(plans, failures, week0, labelOf).inserted
    decreases |plans|
  {
    if m < |plans| {
      var n := |plans| - 1;
      assert plans[..n][..m] == plans[..m];
      AssignPrefix(plans[..n], failures, week0, labelOf, m);
    } else {
      assert plans[..m] == plans;
    }
  }

  /**
   * The outcome logged for each entry: skips are reported with what matched,
   * and an insert is reported as added with week `week0 + k`, where `k`
   * counts the accepted inserts before it, or as failed. A failed insert
   * therefore consumes no week.
   */
  lemma {:induction false} LogEntry(plans: seq<Plan>, failures: set<nat>, week0: nat, labelOf: nat -> string, i: nat)
    requires i < |plans|
    ensures var o := Assign(plans, failures, week0, labelOf).log[i];
      match plans[i]
      case SkipById(id) => o == SkippedById(id)
      case SkipByKey(e) => o == SkippedByKey(e)
      case Insert(_, _, _, _) =>
        o == if i in failures then AddFailed else Added(labelOf(week0 + |Accepted(plans[..i], failures)|))
  {
    AssignPrefix(plans, failures, week0, labelOf, i + 1);
    AssignStep(plans, failures, week0, labelOf, i);
    var prev := Assign(plans[..i], failures, week0, labelOf);
    StepLast(prev, plans[i], i, failures, labelOf);
  }

  /** The outcome one step appends. */
  lemma {:induction false} StepLast(prev: Run, p: Plan, n: nat, failures: set<nat>, labelOf: nat -> string)
    ensures var o := Step(prev, p, n, failures, labelOf).log[|prev.log|];
      match p
      case SkipById(id) => o == SkippedById(id)
      case SkipByKey(e) => o == SkippedByKey(e)
      case Insert(_, _, _, _) => o == if n in failures then AddFailed else Added(labelOf(prev.nextWeek))
  {
  }

  /**
   * A step only appends to the log and to the inserted rows, and what it
   * appends depends on the counter alone, not on the entries before it.
   */
  lemma {:induction false} StepAppends(prev: Run, p: Plan, n: nat, failures: set<nat>, labelOf: nat -> string)
    ensures var s := Step(Run([], [], prev.nextWeek), p, n, failures, labelOf);
      Step(prev, p, n, failures, labelOf) == Run(prev.log + s.log, prev.inserted + s.inserted, s.nextWeek)
  {
  }

  /** The number of entries reported as added. */
  function CountAdded(log: seq<Outcome>): (c: nat)
    ensures c <= |log|
    decreases |log|
  {
    if log == [] then 0
    else CountAdded(log[..|log| - 1]) + (if log[|log| - 1].Added? then 1 else 0)
  }

  /** The added count the loop keeps equals the number of rows it inserted. */
  lemma {:induction false} AddedCountIsInserted(plans: seq<Plan>, failures: set<nat>, week0: nat, labelOf: nat -> string)
    ensures CountAdded(Assign(plans, failures, week0, labelOf).log) == |Assign(plans, failures, week0, labelOf).inserted|
    decreases |plans|
  {
    if plans != [] {
      var n := |plans| - 1;
      AddedCountIsInserted(plans[..n], failures, week0, labelOf);
      var run := Assign(plans, failures, week0, labelOf);
      assert run.log[..n] == Assign(plans[..n], failures, week0, labelOf).log;
    }
  }

  /** Plans that are all skips insert nothing and leave the counter where it was. */
  lemma {:induction false} AllSkipsInsertNothing(plans: seq<Plan>, failures: set<nat>, week0: nat, labelOf: nat -> string)
    requires forall i :: 0 <= i < |plans| ==> !plans[i].Insert?
    ensures Assign(plans, failures, week0, labelOf).inserted == []
    ensures Assign(plans, failures, week0, labelOf).nextWeek == week0
    decreases |plans|
  {
    if plans != [] {
      AllSkipsInsertNothing(plans[..|plans| - 1], failures, week0, labelOf);
    }
  }

  /**
   * The maps are not updated inside the loop: two equal insert plans at
   * different positions whose inserts are accepted are both added, under
   * two different labels when the labelling is injective (as `WeekLabel` is).
   */
  lemma {:induction false} RepeatedEntryAddedTwice(plans: seq<Plan>, failures: set<nat>, week0: nat, labelOf: nat -> string, i: nat, j: nat)
    requires forall a: nat, b: nat :: labelOf(a) == labelOf(b) ==> a == b
    requires i < j < |plans| && plans[i] == plans[j] && plans[i].Insert?
    requires i !in failures && j !in failures
    ensures Assign(plans, failures, week0, labelOf).log[i].Added?
    ensures Assign(plans, failures, week0, labelOf).log[j].Added?
    ensures Assign(plans, failures, week0, labelOf).log[i].week != Assign(plans, failures, week0, labelOf).log[j].week
  {
    LogEntry(plans, failures, week0, labelOf, i);
    LogEntry(plans, failures, week0, labelOf, j);
    AcceptedGrows(plans, failures, i, j);
  }

  /** An accepted insert at position `i` counts among the accepted inserts before any later `j`. */
  lemma {:induction false} AcceptedGrows(plans: seq<Plan>, failures: set<nat>, i: nat, j: nat)
    requires i < j <= |plans| && plans[i].Insert? && i !in failures
    ensures |Accepted(plans[..i], failures)| < |Accepted(plans[..j], failures)|
    decreases j
  {
    var pj := plans[..j];
    assert pj[..j - 1] == plans[..j - 1];
    if j == i + 1 {
      assert pj[i] == plans[i];
    } else {
      AcceptedGrows(plans, failures, i, j - 1);
    }
  }

  /** Every accepted insert is one of the plans. */
  lemma {:induction false} AcceptedAreInserts(plans: seq<Plan>, failures: set<nat>, p: Plan)
    requires p in Accepted(plans, failures)
    ensures p in plans
    decreases |plans|
  {
    var n := |plans| - 1;
    if p in Accepted(plans[..n], failures) {
      AcceptedAreInserts(plans[..n], failures, p);
      assert plans[..n] <= plans;
    }
  }

  /** The k-th inserted row is the row of the insert plan at some position `i`, labelled with `labelOf(week0 + k)`. */
  lemma {:induction false} InsertedFrom(plans: seq<Plan>, failures: set<nat>, week0: nat, labelOf: nat -> string, k: nat)
    returns (i: nat)
    requires k < |Assign(plans, failures, week0, labelOf).inserted|
    ensures i < |plans| && plans[i].Insert?
    ensures Assign(plans, failures, week0, labelOf).inserted[k] == RowOf(plans[i], labelOf(week0 + k))
  {
    AssignInserted(plans, failures, week0, labelOf, k);
    var acc := Accepted(plans, failures);
    assert acc[k] in acc;
    AcceptedAreInserts(plans, failures, acc[k]);
    i :| 0 <= i < |plans| && plans[i] == acc[k];
  }
}
