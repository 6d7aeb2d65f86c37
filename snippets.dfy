/** The post snippets the client receives from `/getposts`, the array that
    holds them, and what PostHelper.sortPostSnippets does to that array. The
    method itself is written once per client revision (std_helpers.dfy,
    globe_helpers.dfy); both revisions share this specification.

    sortPostSnippets takes the element at `pivot` out (`splice(pivot, 1)`),
    sorts the rest with the comparator `b.data.date - a.data.date` and puts
    the element back in front (`splice(0, 0, alpha)`). Array.prototype.sort is
    modelled by SortByDate; the contract promises only what any correct sort
    gives: a permutation in non-increasing date order, with no promise about
    the order of equal dates. */
module Snippets {
  import opened Js

  /** `data` of a snippet as sent by the server. The std server names the
      formatted date `date_string`; the other revision `dateString`. */
  datatype SnippetData = SnippetData(date: int, dateString: Value, image: Value, title: Value, category: Value)

  datatype WireSnippet = WireSnippet(id: Value, data: SnippetData)

  /** A full post as sent by `/getpost`; `content` is `data.content`. */
  datatype WirePost = WirePost(id: Value, data: SnippetData, content: Value)

  /** A JavaScript array of snippets, changed in place and shared by reference. */
  class SnippetArray {
    var items: seq<WireSnippet>

    constructor (items: seq<WireSnippet>)
      ensures this.items == items
    {
      this.items := items;
    }
  }

  /** What PostHelper.getPosts settles with: the cached array, or a GET of `uri`. */
  datatype Fetch = Cached(list: SnippetArray) | Request(uri: string)

  /** Dates never increase from left to right. */
  predicate NonIncreasingDates(s: seq<WireSnippet>)
  {
    forall i, j :: 0 <= i < j < |s| ==> s[i].data.date >= s[j].data.date
  }

  /** The list without the element at `pivot` (`splice(pivot, 1)`). */
  function RemoveAt(s: seq<WireSnippet>, pivot: int): (r: seq<WireSnippet>)
    requires 0 <= pivot < |s|
    ensures |r| == |s| - 1
    ensures multiset(r) + multiset{s[pivot]} == multiset(s)
  {
    assert s == s[..pivot] + [s[pivot]] + s[pivot + 1..];
    s[..pivot] + s[pivot + 1..]
  }

  /** `r` is what sortPostSnippets may leave in an array that held `s`:
      same length, the pivot element first, then all the other elements
      ordered by non-increasing date. */
  predicate IsPivotFirstOrder(r: seq<WireSnippet>, s: seq<WireSnippet>, pivot: int)
    requires 0 <= pivot < |s|
  {
    && |r| == |s|
    && r[0] == s[pivot]
    && multiset(r[1..]) == multiset(RemoveAt(s, pivot))
    && NonIncreasingDates(r[1..])
  }

  /** Inserts `x` before the first element that is not later than it. */
  function InsertByDate(x: WireSnippet, s: seq<WireSnippet>): (r: seq<WireSnippet>)
    ensures |r| == |s| + 1
    ensures multiset(r) == multiset(s) + multiset{x}
  {
    if |s| == 0 then [x]
    else if s[0].data.date <= x.data.date then [x] + s
    else
      assert s == [s[0]] + s[1..];
      [s[0]] + InsertByDate(x, s[1..])
  }

  /** A head no earlier than every element of a sorted tail keeps it sorted. */
  lemma SortedCons(h: WireSnippet, t: seq<WireSnippet>)
    requires NonIncreasingDates(t)
    requires forall y :: y in t ==> y.data.date <= h.data.date
    ensures NonIncreasingDates([h] + t)
  {
    var r := [h] + t;
    forall i, j | 0 <= i < j < |r|
      ensures r[i].data.date >= r[j].data.date
    {
      assert r[j] == t[j - 1];
      if i > 0 {
        assert r[i] == t[i - 1];
      }
    }
  }

  /** Inserting into a list in non-increasing date order keeps that order. */
  lemma {:induction false} InsertKeepsOrder(x: WireSnippet, s: seq<WireSnippet>)
    requires NonIncreasingDates(s)
    ensures NonIncreasingDates(InsertByDate(x, s))
  {
    if |s| > 0 {
      if s[0].data.date <= x.data.date {
        forall y | y in s
          ensures y.data.date <= x.data.date
        {
          var j :| 0 <= j < |s| && s[j] == y;
        }
        SortedCons(x, s);
      } else {
        var rest := InsertByDate(x, s[1..]);
        InsertKeepsOrder(x, s[1..]);
        forall y | y in rest
          ensures y.data.date <= s[0].data.date
        {
          assert y in multiset(rest);
          if y != x {
            assert y in multiset(s[1..]);
            var j :| 0 <= j < |s[1..]| && s[1..][j] == y;
            assert s[j + 1] == y;
          }
        }
        SortedCons(s[0], rest);
      }
    }
  }

  /** `sort((a, b) => b.data.date - a.data.date)` */
  function SortByDate(s: seq<WireSnippet>): (r: seq<WireSnippet>)
    ensures multiset(r) == multiset(s)
    ensures NonIncreasingDates(r)
  {
    if |s| == 0 then []
    else
      assert s == [s[0]] + s[1..];
      var sorted := SortByDate(s[1..]);
      InsertKeepsOrder(s[0], sorted);
      InsertByDate(s[0], sorted)
  }

  /** The three splice/sort/splice steps give a pivot-first order. */
  lemma {:induction false} SortStepsGivePivotFirstOrder(s: seq<WireSnippet>, pivot: int)
    requires 0 <= pivot < |s|
    ensures IsPivotFirstOrder([s[pivot]] + SortByDate(RemoveAt(s, pivot)), s, pivot)
  {
    var rest := SortByDate(RemoveAt(s, pivot));
    var r := [s[pivot]] + rest;
    assert r[1..] == rest;
    assert |rest| == |multiset(rest)| == |multiset(RemoveAt(s, pivot))| == |s| - 1;
  }

  /** A pivot-first order is a permutation of the original list. */
  lemma {:induction false} PivotFirstOrderIsPermutation(r: seq<WireSnippet>, s: seq<WireSnippet>, pivot: int)
    requires 0 <= pivot < |s|
    requires IsPivotFirstOrder(r, s, pivot)
    ensures multiset(r) == multiset(s)
  {
    assert r == [r[0]] + r[1..];
  }

  /** Sorting again with the same pivot 0 keeps a pivot-first order one:
      re-sorting the cached list after a click on the front card is harmless. */
  lemma {:induction false} ResortWithFrontPivot(r: seq<WireSnippet>, s: seq<WireSnippet>, pivot: int, r2: seq<WireSnippet>)
    requires 0 <= pivot < |s|
    requires IsPivotFirstOrder(r, s, pivot)
    requires IsPivotFirstOrder(r2, r, 0)
    ensures IsPivotFirstOrder(r2, s, pivot)
  {
    assert RemoveAt(r, 0) == r[1..];
  }
}
