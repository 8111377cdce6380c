/** Newest-first ordering of feedback by `createdAt`, and the "most recent n" selection.
    Both the backend query `order_by(created_at.desc()).limit(5)` and the client's
    `sort((a, b) => b.created_at - a.created_at)` use this order. The sort is an insertion sort; its
    contracts fix the result only up to the order of records with equal `createdAt`. */
module Recency {
  import opened Domain

  predicate NewestFirst(s: seq<Feedback>)
  {
    forall i, j :: 0 <= i < j < |s| ==> s[i].createdAt >= s[j].createdAt
  }

  /** A record no older than the head of a newest-first list may go in front of it. */
  lemma PrependNewest(f: Feedback, s: seq<Feedback>)
    requires NewestFirst(s)
    requires s == [] || f.createdAt >= s[0].createdAt
    ensures NewestFirst([f] + s)
  {
    var r := [f] + s;
    forall i, j | 0 <= i < j < |r|
      ensures r[i].createdAt >= r[j].createdAt
    {
      if i == 0 && j > 1 {
        assert r[1] == s[0] && r[j] == s[j - 1];
      }
    }
  }

  /** Places `f` before the first record of `s` that is no newer than it, so `f` goes
      ahead of records with the same `createdAt`. */
  function Insert(f: Feedback, s: seq<Feedback>): (r: seq<Feedback>)
    ensures |r| == |s| + 1
    ensures multiset(r) == multiset(s) + multiset{f}
    ensures r[0] == f || (s != [] && r[0] == s[0])
    ensures NewestFirst(s) ==> NewestFirst(r)
  {
    if s == [] || f.createdAt >= s[0].createdAt then
      if NewestFirst(s) then PrependNewest(f, s); [f] + s else [f] + s
    else
      assert s == [s[0]] + s[1..];
      var t := Insert(f, s[1..]);
      if NewestFirst(s) then
        assert NewestFirst(s[1..]) by {
          forall i, j | 0 <= i < j < |s| - 1 ensures s[1..][i].createdAt >= s[1..][j].createdAt {
            assert s[1..][i] == s[i + 1] && s[1..][j] == s[j + 1];
          }
        }
        assert |s| > 1 ==> s[0].createdAt >= s[1].createdAt;
        PrependNewest(s[0], t);
        [s[0]] + t
      else [s[0]] + t
  }

  /** The records of `s` in newest-first order. */
  function SortNewestFirst(s: seq<Feedback>): (r: seq<Feedback>)
    ensures |r| == |s|
    ensures multiset(r) == multiset(s)
    ensures NewestFirst(r)
  {
    if s == [] then []
    else
      assert s == [s[0]] + s[1..];
      Insert(s[0], SortNewestFirst(s[1..]))
  }

  function Min(a: nat, b: nat): nat { if a <= b then a else b }

  /** The `n` newest records of `s`, newest first. */
  function MostRecent(s: seq<Feedback>, n: nat): (r: seq<Feedback>)
    ensures |r| == Min(n, |s|)
    ensures NewestFirst(r)
    ensures multiset(r) <= multiset(s)
    ensures forall x :: x in r ==> x in s
  {
    var sorted := SortNewestFirst(s);
    var k := Min(n, |s|);
    var r := sorted[..k];
    assert sorted == r + sorted[k..];
    assert multiset(sorted) == multiset(r) + multiset(sorted[k..]);
    assert forall x :: x in r ==> x in multiset(s);
    r
  }

  /** Nothing left out of `MostRecent(s, n)` is newer than anything kept in it. */
  lemma MostRecentHoldsNewest(s: seq<Feedback>, n: nat, kept: Feedback, dropped: Feedback)
    requires kept in MostRecent(s, n)
    requires dropped in multiset(s) - multiset(MostRecent(s, n))
    ensures dropped.createdAt <= kept.createdAt
  {
    var sorted := SortNewestFirst(s);
    var k := Min(n, |s|);
    var r := sorted[..k];
    var rest := sorted[k..];
    assert MostRecent(s, n) == r;
    assert sorted == r + rest;
    assert multiset(s) == multiset(r) + multiset(rest);
    assert dropped in multiset(rest);
    var j :| 0 <= j < |rest| && rest[j] == dropped;
    var i :| 0 <= i < |r| && r[i] == kept;
    assert sorted[i] == kept;
    assert sorted[k + j] == dropped;
  }
}
