/** The two orders query results come in: the natural order of a collection
    (ascending ObjectId, i.e. insertion order) and the order a `$sort` stage
    or `.sort()` imposes on a key. */
module Order {

  predicate Increasing(s: seq<nat>) {
    forall i, j :: 0 <= i < j < |s| ==> s[i] < s[j]
  }

  /** A set of naturals holding x has a least element: descend from x while
      something smaller is in the set. */
  lemma {:induction false} HasLeast(ks: set<nat>, x: nat)
    requires x in ks
    ensures exists m :: m in ks && forall k :: k in ks ==> m <= k
    decreases x
  {
    if exists y :: y in ks && y < x {
      var y :| y in ks && y < x;
      HasLeast(ks, y);
    } else {
      assert forall k :: k in ks ==> x <= k;
    }
  }

  function Least(ks: set<nat>): (m: nat)
    requires ks != {}
    ensures m in ks && forall k :: k in ks ==> m <= k
  {
    var x :| x in ks;
    HasLeast(ks, x);
    var m :| m in ks && forall k :: k in ks ==> m <= k;
    m
  }

  /** The ids of a set of documents in natural order, each once. */
  function KeysInOrder(ks: set<nat>): (r: seq<nat>)
    ensures Increasing(r)
    ensures forall k :: k in r <==> k in ks
    ensures |r| == |ks|
    decreases ks
  {
    if ks == {} then []
    else
      var m := Least(ks);
      [m] + KeysInOrder(ks - {m})
  }

  /** The ids of the records of a collection that satisfy a query filter. */
  function Where<E>(m: map<nat, E>, p: E -> bool): set<nat> {
    set k | k in m && p(m[k])
  }

  /** `Model.find(filter)`: the ids of the records the filter matches, in
      natural order, each once. */
  function FindIds<E>(m: map<nat, E>, p: E -> bool): (r: seq<nat>)
    ensures Increasing(r)
    ensures forall k :: k in r <==> k in m && p(m[k])
    ensures |r| == |Where(m, p)|
  {
    KeysInOrder(Where(m, p))
  }

  /** Non-decreasing in `key`: a descending sort is a sort on the negated key. */
  predicate SortedOn<T>(s: seq<T>, key: T -> int) {
    forall i, j :: 0 <= i < j < |s| ==> key(s[i]) <= key(s[j])
  }

  function Insert<T>(x: T, s: seq<T>, key: T -> int): (r: seq<T>)
    requires SortedOn(s, key)
    ensures SortedOn(r, key)
    ensures multiset(r) == multiset(s) + multiset{x}
  {
    if s == [] || key(x) <= key(s[0]) then
      [x] + s
    else
      var t := Insert(x, s[1..], key);
      assert s == [s[0]] + s[1..];
      InsertHead(s[0], t, x, s[1..], key);
      [s[0]] + t
  }

  lemma InsertHead<T>(h: T, t: seq<T>, x: T, rest: seq<T>, key: T -> int)
    requires SortedOn(t, key) && key(h) < key(x)
    requires multiset(t) == multiset(rest) + multiset{x}
    requires forall i :: 0 <= i < |rest| ==> key(h) <= key(rest[i])
    ensures SortedOn([h] + t, key)
  {
    forall j | 0 <= j < |t| ensures key(h) <= key(t[j]) {
      assert t[j] in multiset(t);
      if t[j] != x {
        assert t[j] in multiset(rest);
        var i :| 0 <= i < |rest| && rest[i] == t[j];
      }
    }
    var r := [h] + t;
    forall i, j | 0 <= i < j < |r| ensures key(r[i]) <= key(r[j]) {
      if i > 0 { assert r[i] == t[i - 1] && r[j] == t[j - 1]; } else { assert r[j] == t[j - 1]; }
    }
  }

  /** A `$sort` stage: the same documents, ordered on `key`. */
  function SortOn<T>(s: seq<T>, key: T -> int): (r: seq<T>)
    ensures SortedOn(r, key)
    ensures multiset(r) == multiset(s)
  {
    if s == [] then []
    else
      assert s == [s[0]] + s[1..];
      Insert(s[0], SortOn(s[1..], key), key)
  }
}
