/**
 * The list operations the storage layer and the dashboard tabs apply to
 * lists of items that carry a string id: `findIndex`, `filter` on the id,
 * `map` that edits the items with a given id, and `slice(0, n)`.
 */
module Seqs {
  import opened Wrappers

  /** `s.findIndex(x => idOf(x) === id)`, with `None` for JavaScript's -1. */
  function FindIndex<T>(s: seq<T>, idOf: T -> string, id: string): (r: Option<nat>)
    ensures r.Some? ==> r.value < |s| && idOf(s[r.value]) == id
    ensures r.Some? ==> forall j :: 0 <= j < r.value ==> idOf(s[j]) != id
    ensures r.None? <==> forall j :: 0 <= j < |s| ==> idOf(s[j]) != id
  {
    if |s| == 0 then None
    else if idOf(s[0]) == id then Some(0)
    else
      match FindIndex(s[1..], idOf, id)
      case None => None
      case Some(k) => Some(k + 1)
  }

  /** True when some element of `s` has the id. */
  predicate HasId<T>(s: seq<T>, idOf: T -> string, id: string)
  {
    exists j :: 0 <= j < |s| && idOf(s[j]) == id
  }

  /** The number of elements of `s` that have the id. */
  function CountId<T>(s: seq<T>, idOf: T -> string, id: string): nat
  {
    if |s| == 0 then 0
    else (if idOf(s[0]) == id then 1 else 0) + CountId(s[1..], idOf, id)
  }

  /** `s.filter(x => idOf(x) !== id)`. */
  function RemoveId<T(!new)>(s: seq<T>, idOf: T -> string, id: string): (r: seq<T>)
    ensures forall x :: x in r <==> x in s && idOf(x) != id
    ensures |r| == |s| - CountId(s, idOf, id)
    ensures !HasId(s, idOf, id) ==> r == s
  {
    if |s| == 0 then []
    else if idOf(s[0]) == id then RemoveId(s[1..], idOf, id)
    else
      assert HasId(s[1..], idOf, id) ==> HasId(s, idOf, id) by {
        if HasId(s[1..], idOf, id) {
          var j :| 0 <= j < |s[1..]| && idOf(s[1..][j]) == id;
          assert idOf(s[j + 1]) == id;
        }
      }
      [s[0]] + RemoveId(s[1..], idOf, id)
  }

  /** Filtering distributes over concatenation, so the kept items stay in their order. */
  lemma {:induction false} RemoveIdAppend<T(!new)>(a: seq<T>, b: seq<T>, idOf: T -> string, id: string)
    ensures RemoveId(a + b, idOf, id) == RemoveId(a, idOf, id) + RemoveId(b, idOf, id)
  {
    if |a| > 0 {
      assert (a + b)[1..] == a[1..] + b;
      RemoveIdAppend(a[1..], b, idOf, id);
    } else {
      assert a + b == b;
    }
  }

  /** The definition of `RemoveId` unfolded once at a list with a new head; a step for concrete lists. */
  lemma RemoveIdCons<T(!new)>(x: T, s: seq<T>, idOf: T -> string, id: string)
    ensures RemoveId([x] + s, idOf, id) == if idOf(x) == id then RemoveId(s, idOf, id) else [x] + RemoveId(s, idOf, id)
  {
    assert ([x] + s)[1..] == s;
  }

  /** Filtering twice with the same id changes nothing the second time. */
  lemma {:induction false} RemoveIdIdempotent<T(!new)>(s: seq<T>, idOf: T -> string, id: string)
    ensures RemoveId(RemoveId(s, idOf, id), idOf, id) == RemoveId(s, idOf, id)
  {
    var r := RemoveId(s, idOf, id);
    forall j | 0 <= j < |r| ensures idOf(r[j]) != id {
      assert r[j] in r;
    }
  }

  /** Elements with distinct ids: each id occurs at most once. */
  predicate DistinctIds<T>(s: seq<T>, idOf: T -> string)
  {
    forall i, j :: 0 <= i < j < |s| ==> idOf(s[i]) != idOf(s[j])
  }

  /** With distinct ids, an id that occurs is counted exactly once. */
  lemma {:induction false} CountDistinct<T>(s: seq<T>, idOf: T -> string, id: string)
    requires DistinctIds(s, idOf)
    ensures CountId(s, idOf, id) == if HasId(s, idOf, id) then 1 else 0
  {
    if |s| > 0 {
      assert DistinctIds(s[1..], idOf) by {
        forall i, j | 0 <= i < j < |s[1..]| ensures idOf(s[1..][i]) != idOf(s[1..][j]) {
          assert s[1..][i] == s[i + 1] && s[1..][j] == s[j + 1];
        }
      }
      CountDistinct(s[1..], idOf, id);
      if idOf(s[0]) == id {
        forall j | 0 <= j < |s[1..]| ensures idOf(s[1..][j]) != id {
          assert s[1..][j] == s[j + 1];
        }
      } else {
        assert HasId(s, idOf, id) <==> HasId(s[1..], idOf, id) by {
          if HasId(s, idOf, id) {
            var j :| 0 <= j < |s| && idOf(s[j]) == id;
            assert j > 0 && idOf(s[1..][j - 1]) == id;
          }
          if HasId(s[1..], idOf, id) {
            var j :| 0 <= j < |s[1..]| && idOf(s[1..][j]) == id;
            assert idOf(s[j + 1]) == id;
          }
        }
      }
    }
  }

  /**
   * With distinct ids, removing an id that occurs shortens the list by
   * exactly one, and removing it again changes nothing.
   */
  lemma RemovePresentDistinct<T(!new)>(s: seq<T>, idOf: T -> string, id: string)
    requires DistinctIds(s, idOf) && HasId(s, idOf, id)
    ensures |RemoveId(s, idOf, id)| == |s| - 1
    ensures !HasId(RemoveId(s, idOf, id), idOf, id)
  {
    CountDistinct(s, idOf, id);
    var r := RemoveId(s, idOf, id);
    forall j | 0 <= j < |r| ensures idOf(r[j]) != id {
      assert r[j] in r;
    }
  }

  /** `s.map(x => idOf(x) === id ? edit(x) : x)`. */
  function MapId<T>(s: seq<T>, idOf: T -> string, id: string, edit: T -> T): (r: seq<T>)
    ensures |r| == |s|
    ensures forall i :: 0 <= i < |s| && idOf(s[i]) == id ==> r[i] == edit(s[i])
    ensures forall i :: 0 <= i < |s| && idOf(s[i]) != id ==> r[i] == s[i]
  {
    if |s| == 0 then []
    else [if idOf(s[0]) == id then edit(s[0]) else s[0]] + MapId(s[1..], idOf, id, edit)
  }

  /** `s.slice(0, n)`: the first `n` elements, or all of them when there are fewer. */
  function Take<T>(s: seq<T>, n: nat): (r: seq<T>)
    ensures |r| <= n && |r| <= |s|
    ensures |s| >= n ==> |r| == n
    ensures |s| < n ==> r == s
    ensures forall i :: 0 <= i < |r| ==> r[i] == s[i]
  {
    if |s| <= n then s else s[..n]
  }
}
