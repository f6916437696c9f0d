/**
 * The `musix_rate_limit` table and its gateway (app/musix/db.ts): one row
 * per recorded sync run, holding the time it was recorded. Times are
 * milliseconds since the epoch; the clock is a parameter.
 */
module RateLimitStore {

  const MsPerHour := 60 * 60 * 1000

  /** The timestamps of `ts` that are not before `cutoff`, in their original order. */
  function KeepFrom(ts: seq<int>, cutoff: int): (r: seq<int>)
    ensures |r| <= |ts|
    ensures forall t :: t in r <==> t in ts && t >= cutoff
    ensures forall t :: multiset(r)[t] == if t >= cutoff then multiset(ts)[t] else 0
    decreases |ts|
  {
    if ts == [] then []
    else
      var n := |ts| - 1;
      var kept := KeepFrom(ts[..n], cutoff);
      var last := if ts[n] >= cutoff then [ts[n]] else [];
      assert ts == ts[..n] + [ts[n]];
      assert multiset(ts) == multiset(ts[..n]) + multiset{ts[n]};
      assert multiset(kept + last) == multiset(kept) + multiset(last);
      kept + last
  }

  /**
   * The delete keeps the stored order: filtering `a + b` filters `a`, then
   * `b`. With the multiplicity clause of `KeepFrom`, two runs recorded at
   * the same instant both stay.
   */
  lemma {:induction false} KeepFromAppend(a: seq<int>, b: seq<int>, cutoff: int)
    ensures KeepFrom(a + b, cutoff) == KeepFrom(a, cutoff) + KeepFrom(b, cutoff)
    decreases |b|
  {
    if b == [] {
      assert a + b == a;
    } else {
      var n := |b| - 1;
      KeepFromAppend(a, b[..n], cutoff);
      assert (a + b)[..|a + b| - 1] == a + b[..n];
      assert (a + b)[|a + b| - 1] == b[n];
    }
  }

  /** Timestamps ordered newest first. */
  predicate SortedDesc(ts: seq<int>) {
    forall i, j :: 0 <= i < j < |ts| ==> ts[i] >= ts[j]
  }

  function InsertDesc(t: int, s: seq<int>): (r: seq<int>)
    requires SortedDesc(s)
    ensures SortedDesc(r)
    ensures multiset(r) == multiset(s) + multiset{t}
    decreases |s|
  {
    if s == [] || t >= s[0] then
      InsertAtHeadDesc(t, s);
      [t] + s
    else
      var rest := InsertDesc(t, s[1..]);
      InsertBehindHeadDesc(t, s, rest);
      assert s == [s[0]] + s[1..];
      [s[0]] + rest
  }

  /** Every element of `s` is at most `h`. */
  ghost predicate AllAtMost(s: seq<int>, h: int) {
    forall x :: x in s ==> x <= h
  }

  lemma {:induction false} PrependDesc(h: int, s: seq<int>)
    requires SortedDesc(s) && AllAtMost(s, h)
    ensures SortedDesc([h] + s)
  {
    var r := [h] + s;
    forall i, j | 0 <= i < j < |r| ensures r[i] >= r[j] {
      assert r[j] == s[j - 1];
      if i == 0 {
        assert s[j - 1] in s;
      } else {
        assert r[i] == s[i - 1];
      }
    }
  }

  lemma {:induction false} InsertAtHeadDesc(t: int, s: seq<int>)
    requires SortedDesc(s) && (s == [] || t >= s[0])
    ensures SortedDesc([t] + s)
  {
    forall x | x in s ensures x <= t {
      var j :| 0 <= j < |s| && s[j] == x;
      assert s[0] >= s[j];
    }
    PrependDesc(t, s);
  }

  lemma {:induction false} InsertBehindHeadDesc(t: int, s: seq<int>, rest: seq<int>)
    requires SortedDesc(s) && s != [] && t < s[0]
    requires SortedDesc(rest) && multiset(rest) == multiset(s[1..]) + multiset{t}
    ensures SortedDesc([s[0]] + rest)
  {
    forall x | x in rest ensures x <= s[0] {
      assert x in multiset(rest);
      if x != t {
        assert x in multiset(s[1..]);
        var j :| 0 <= j < |s[1..]| && s[1..][j] == x;
        assert s[j + 1] == x;
      }
    }
    PrependDesc(s[0], rest);
  }

  /** `order('executed_at', { ascending: false })`. */
  function SortDesc(ts: seq<int>): (r: seq<int>)
    ensures SortedDesc(r)
    ensures multiset(r) == multiset(ts)
    decreases |ts|
  {
    if ts == [] then []
    else
      assert ts == [ts[0]] + ts[1..];
      InsertDesc(ts[0], SortDesc(ts[1..]))
  }

  /** The table, held in memory; store errors are inputs. */
  class RateLimitTable {
    var executedAt: seq<int>

    constructor (initial: seq<int>)
      ensures executedAt == initial
    {
      executedAt := initial;
    }

    /**
     * `getRateLimitExecutions`: every timestamp, newest first; a failed read
     * yields the empty list, so the limiter then admits the run.
     */
    method GetExecutions(readFails: bool) returns (ts: seq<int>)
      ensures readFails ==> ts == []
      ensures !readFails ==> SortedDesc(ts) && multiset(ts) == multiset(executedAt)
    {
      if readFails {
        return [];
      }
      ts := SortDesc(executedAt);
    }

    /** `addRateLimitExecution`: record a run at time `now`; a store error records nothing. */
    method AddExecution(now: int, accepted: bool)
      modifies this
      ensures accepted ==> executedAt == old(executedAt) + [now]
      ensures !accepted ==> executedAt == old(executedAt)
    {
      if accepted {
        executedAt := executedAt + [now];
      }
    }

    /**
     * `cleanOldRateLimitExecutions`: delete exactly the rows recorded before
     * `now - windowHours` hours; the others stay, in order. A store error
     * deletes nothing.
     */
    method CleanOld(windowHours: int, now: int, accepted: bool)
      modifies this
      ensures accepted ==> executedAt == KeepFrom(old(executedAt), now - windowHours * MsPerHour)
      ensures !accepted ==> executedAt == old(executedAt)
    {
      if !accepted {
        return;
      }
      var cutoff := now - windowHours * MsPerHour;
      var kept: seq<int> := [];
      for i := 0 to |executedAt|
        invariant kept == KeepFrom(executedAt[..i], cutoff)
      {
        assert executedAt[..i + 1][..i] == executedAt[..i];
        if executedAt[i] >= cutoff {
          kept := kept + [executedAt[i]];
        }
      }
      assert executedAt[..|executedAt|] == executedAt;
      executedAt := kept;
    }
  }
}
