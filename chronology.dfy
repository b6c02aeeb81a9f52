/**
 * Newest-first ordering of timeline entries, shared by the timeline tab, the
 * timeline page and the home page, each of which sorts a copy of the list by
 * descending date. Date parsing is abstracted to `dateKey`, a total map from
 * a date string to its time value; the order is only defined relative to
 * that key.
 */
module Chronology {
  import opened Storage
  import Seqs

  /** Every entry's date key is at least that of every entry after it. */
  predicate NewestFirst(s: seq<TimelineEntry>, dateKey: string -> int)
  {
    forall i, j :: 0 <= i < j < |s| ==> dateKey(s[i].date) >= dateKey(s[j].date)
  }

  /**
   * Inserts `x` before the first entry that is not newer than it; an entry
   * inserted this way precedes the equal-keyed entries already there, as a
   * stable sort keeps it when `x` came first in the input.
   */
  function Insert(x: TimelineEntry, s: seq<TimelineEntry>, dateKey: string -> int): (r: seq<TimelineEntry>)
    requires NewestFirst(s, dateKey)
    ensures NewestFirst(r, dateKey)
    ensures multiset(r) == multiset(s) + multiset{x}
    ensures |r| == |s| + 1
  {
    if |s| == 0 || dateKey(x.date) >= dateKey(s[0].date) then
      PrependSorted(x, s, dateKey);
      [x] + s
    else
      assert NewestFirst(s[1..], dateKey);
      var rest := Insert(x, s[1..], dateKey);
      HeadBoundsRest(x, s, rest, dateKey);
      PrependSorted(s[0], rest, dateKey);
      assert s == [s[0]] + s[1..];
      [s[0]] + rest
  }

  /** An entry at least as new as the head of a sorted list can go in front of it. */
  lemma PrependSorted(h: TimelineEntry, t: seq<TimelineEntry>, dateKey: string -> int)
    requires NewestFirst(t, dateKey)
    requires |t| == 0 || dateKey(h.date) >= dateKey(t[0].date)
    ensures NewestFirst([h] + t, dateKey)
  {
    var r := [h] + t;
    forall i, j | 0 <= i < j < |r|
      ensures dateKey(r[i].date) >= dateKey(r[j].date)
    {
      if i == 0 {
        assert r[j] == t[j - 1];
        assert dateKey(t[0].date) >= dateKey(t[j - 1].date) || j - 1 == 0;
      } else {
        assert r[i] == t[i - 1] && r[j] == t[j - 1];
      }
    }
  }

  /**
   * When `x` is older than the head of `s`, the head is newer than anything
   * in `rest` = the insertion of `x` into the tail.
   */
  lemma HeadBoundsRest(x: TimelineEntry, s: seq<TimelineEntry>, rest: seq<TimelineEntry>, dateKey: string -> int)
    requires |s| > 0 && NewestFirst(s, dateKey) && dateKey(x.date) < dateKey(s[0].date)
    requires multiset(rest) == multiset(s[1..]) + multiset{x}
    requires NewestFirst(rest, dateKey)
    ensures |rest| == 0 || dateKey(s[0].date) >= dateKey(rest[0].date)
  {
    if |rest| > 0 {
      assert rest[0] in multiset(rest);
      if rest[0] != x {
        assert rest[0] in multiset(s[1..]);
        var k :| 0 <= k < |s[1..]| && s[1..][k] == rest[0];
        assert s[k + 1] == rest[0];
      }
    }
  }

  /** The sorted copy: newest first, and the same entries as the input. */
  function SortNewestFirst(s: seq<TimelineEntry>, dateKey: string -> int): (r: seq<TimelineEntry>)
    ensures NewestFirst(r, dateKey)
    ensures multiset(r) == multiset(s)
    ensures |r| == |s|
  {
    if |s| == 0 then []
    else
      assert s == [s[0]] + s[1..];
      Insert(s[0], SortNewestFirst(s[1..], dateKey), dateKey)
  }

  /** A list that is already newest first comes back unchanged. */
  lemma {:induction false} SortKeepsSorted(s: seq<TimelineEntry>, dateKey: string -> int)
    requires NewestFirst(s, dateKey)
    ensures SortNewestFirst(s, dateKey) == s
  {
    if |s| > 0 {
      assert NewestFirst(s[1..], dateKey);
      SortKeepsSorted(s[1..], dateKey);
    }
  }

  /**
   * The first `n` entries of the sorted copy are the newest: none of the
   * entries left out is newer than any entry shown.
   */
  lemma NewestPrefix(s: seq<TimelineEntry>, dateKey: string -> int, n: nat)
    ensures var shown := Seqs.Take(SortNewestFirst(s, dateKey), n);
      forall x, y :: x in shown && y in multiset(s) - multiset(shown) ==> dateKey(x.date) >= dateKey(y.date)
  {
    var r := SortNewestFirst(s, dateKey);
    var shown := Seqs.Take(r, n);
    var rest := r[|shown|..];
    SplitLeftOut(s, r, shown, rest);
    forall x, y | x in shown && y in multiset(s) - multiset(shown)
      ensures dateKey(x.date) >= dateKey(y.date)
    {
      SortedSplit(r, shown, rest, x, y, dateKey);
    }
  }

  /** What a prefix of a permutation leaves out is the rest of it. */
  lemma SplitLeftOut(s: seq<TimelineEntry>, r: seq<TimelineEntry>, shown: seq<TimelineEntry>, rest: seq<TimelineEntry>)
    requires multiset(r) == multiset(s) && |shown| <= |r| && shown == r[..|shown|] && rest == r[|shown|..]
    ensures multiset(s) - multiset(shown) == multiset(rest)
  {
    assert r == shown + rest;
  }

  lemma SortedSplit(r: seq<TimelineEntry>, shown: seq<TimelineEntry>, rest: seq<TimelineEntry>,
                    x: TimelineEntry, y: TimelineEntry, dateKey: string -> int)
    requires NewestFirst(r, dateKey) && |shown| <= |r| && shown == r[..|shown|] && rest == r[|shown|..]
    requires x in shown && y in multiset(rest)
    ensures dateKey(x.date) >= dateKey(y.date)
  {
    var i :| 0 <= i < |shown| && shown[i] == x;
    assert y in rest;
    var j :| 0 <= j < |rest| && rest[j] == y;
    assert r[i] == x && r[|shown| + j] == y;
  }
}
