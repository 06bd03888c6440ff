/** The document streams an aggregation pipeline passes from stage to stage:
    a `$match` keeps the documents satisfying a condition, a `$lookup` or
    `$addFields` rewrites each document, and a `$sort` permutes them. */
module Streams {
  import opened Order

  /** A `$match` stage: the documents satisfying p, in their incoming order. */
  function Filter<T(!new)>(s: seq<T>, p: T -> bool): (r: seq<T>)
    ensures forall x :: x in r <==> x in s && p(x)
    ensures |r| <= |s|
  {
    if s == [] then []
    else if p(s[0]) then [s[0]] + Filter(s[1..], p)
    else Filter(s[1..], p)
  }

  /** A stage that rewrites every document, keeping the order. */
  function Map<T, U>(s: seq<T>, f: T --> U): seq<U>
    requires forall x :: x in s ==> f.requires(x)
  {
    seq(|s|, i requires 0 <= i < |s| => f(s[i]))
  }

  /** Strictly increasing in `id`: the natural order of documents with distinct ids. */
  predicate IncreasingOn<T>(s: seq<T>, id: T -> int) {
    forall i, j :: 0 <= i < j < |s| ==> id(s[i]) < id(s[j])
  }

  /** No two documents share an id. */
  predicate DistinctOn<T>(s: seq<T>, id: T -> int) {
    forall i, j :: 0 <= i < j < |s| ==> id(s[i]) != id(s[j])
  }

  /** A `$match` keeps the natural order of what it lets through. */
  lemma {:induction false} FilterKeepsIncreasing<T(!new)>(s: seq<T>, p: T -> bool, id: T -> int)
    requires IncreasingOn(s, id)
    ensures IncreasingOn(Filter(s, p), id)
  {
    if s != [] {
      var rest := s[1..];
      assert IncreasingOn(rest, id) by {
        forall i, j | 0 <= i < j < |rest| ensures id(rest[i]) < id(rest[j]) {
          assert rest[i] == s[i + 1] && rest[j] == s[j + 1];
        }
      }
      FilterKeepsIncreasing(rest, p, id);
      var t := Filter(rest, p);
      if p(s[0]) {
        assert Filter(s, p) == [s[0]] + t;
        AboveHead(s, id, t);
        HeadThenIncreasing(s[0], t, id);
      } else {
        assert Filter(s, p) == t;
      }
    }
  }

  /** Whatever is drawn from the tail lies above the head. */
  lemma AboveHead<T>(s: seq<T>, id: T -> int, t: seq<T>)
    requires s != [] && IncreasingOn(s, id)
    requires forall x :: x in t ==> x in s[1..]
    ensures forall x :: x in t ==> id(s[0]) < id(x)
  {
    forall x | x in t ensures id(s[0]) < id(x) {
      var k :| 0 <= k < |s[1..]| && s[1..][k] == x;
      assert x == s[k + 1];
    }
  }

  lemma HeadThenIncreasing<T>(h: T, t: seq<T>, id: T -> int)
    requires IncreasingOn(t, id) && forall x :: x in t ==> id(h) < id(x)
    ensures IncreasingOn([h] + t, id)
  {
    var r := [h] + t;
    forall i, j | 0 <= i < j < |r| ensures id(r[i]) < id(r[j]) {
      assert r[j] == t[j - 1] && r[j] in t;
      if i > 0 { assert r[i] == t[i - 1]; }
    }
  }

  /** With distinct ids, every document occurs at most once. */
  lemma {:induction false} DistinctOccursOnce<T>(s: seq<T>, id: T -> int, x: T)
    requires DistinctOn(s, id)
    ensures multiset(s)[x] <= 1
  {
    if s != [] {
      var rest := s[1..];
      assert s == [s[0]] + rest;
      assert DistinctOn(rest, id) by {
        forall i, j | 0 <= i < j < |rest| ensures id(rest[i]) != id(rest[j]) {
          assert rest[i] == s[i + 1] && rest[j] == s[j + 1];
        }
      }
      DistinctOccursOnce(rest, id, x);
      forall k | 0 <= k < |rest| ensures rest[k] != s[0] {
        assert id(s[0]) != id(s[k + 1]);
      }
    }
  }

  /** A document found at two positions occurs at least twice. */
  lemma TwiceOccurs<T>(t: seq<T>, i: int, j: int)
    requires 0 <= i < j < |t| && t[i] == t[j]
    ensures multiset(t)[t[i]] >= 2
  {
    assert t == t[..j] + [t[j]] + t[j + 1..];
    assert t[i] in t[..j];
  }

  /** Reordering documents (a `$sort`) keeps their ids distinct. */
  lemma PermutationKeepsDistinct<T>(s: seq<T>, t: seq<T>, id: T -> int)
    requires DistinctOn(s, id) && multiset(s) == multiset(t)
    ensures DistinctOn(t, id)
  {
    forall i, j | 0 <= i < j < |t| ensures id(t[i]) != id(t[j]) {
      assert t[i] in multiset(s) && t[j] in multiset(s);
      var a :| 0 <= a < |s| && s[a] == t[i];
      var b :| 0 <= b < |s| && s[b] == t[j];
      if a == b {
        TwiceOccurs(t, i, j);
        DistinctOccursOnce(s, id, t[i]);
      } else if a < b {
        assert id(s[a]) != id(s[b]);
      } else {
        assert id(s[b]) != id(s[a]);
      }
    }
  }

  /** Documents in natural order have distinct ids. */
  lemma IncreasingIsDistinct<T>(s: seq<T>, id: T -> int)
    requires IncreasingOn(s, id)
    ensures DistinctOn(s, id)
  {
    forall i, j | 0 <= i < j < |s| ensures id(s[i]) != id(s[j]) {
      assert id(s[i]) < id(s[j]);
    }
  }

  /** A `$sort` of documents in natural order returns the same documents,
      each still once. */
  lemma SortKeepsDocuments<T>(s: seq<T>, key: T -> int, id: T -> int)
    requires IncreasingOn(s, id)
    ensures var t := SortOn(s, key);
      && (forall x :: x in t <==> x in s)
      && DistinctOn(t, id)
  {
    var t := SortOn(s, key);
    IncreasingIsDistinct(s, id);
    PermutationKeepsDistinct(s, t, id);
    forall x ensures x in t <==> x in s {
      assert x in t <==> x in multiset(t);
    }
  }
}
