/** Edits of a playlist's ordered video list: `push` of one id and MongoDB's
    `$pull`, which removes every element equal to the given value. */
module Lists {

  /** `$pull: { videos: v }`: every occurrence of v removed, the rest kept. */
  function Pull<T(==)>(xs: seq<T>, v: T): (r: seq<T>)
    ensures v !in r
    ensures v !in xs ==> r == xs
  {
    if xs == [] then []
    else if xs[0] == v then Pull(xs[1..], v)
      else [xs[0]] + Pull(xs[1..], v)
  }

  /** `$pull` works element by element: it keeps the relative order of what
      remains, whichever way the list is split. */
  lemma {:induction false} PullDistributes<T>(a: seq<T>, b: seq<T>, v: T)
    ensures Pull(a + b, v) == Pull(a, v) + Pull(b, v)
  {
    if a == [] {
      assert a + b == b;
    } else {
      var x, rest := a[0], a[1..];
      calc {
        Pull(a + b, v);
        { assert a + b == [x] + (rest + b); }
        Pull([x] + (rest + b), v);
        { PullCons(x, rest + b, v); }
        if x == v then Pull(rest + b, v) else [x] + Pull(rest + b, v);
        { PullDistributes(rest, b, v); }
        if x == v then Pull(rest, v) + Pull(b, v) else [x] + (Pull(rest, v) + Pull(b, v));
        { assert a == [x] + rest; PullCons(x, rest, v); }
        Pull(a, v) + Pull(b, v);
      }
    }
  }

  lemma PullCons<T>(x: T, s: seq<T>, v: T)
    ensures Pull([x] + s, v) == if x == v then Pull(s, v) else [x] + Pull(s, v)
  {
    assert ([x] + s)[1..] == s;
  }

  /** `$pull` removes exactly the occurrences of v and keeps every other
      element as often as it was there. */
  lemma {:induction false} PullCounts<T>(xs: seq<T>, v: T)
    ensures multiset(Pull(xs, v)) == multiset(xs)[v := 0]
    ensures |Pull(xs, v)| == |xs| - multiset(xs)[v]
  {
    if xs != [] {
      PullCounts(xs[1..], v);
      assert xs == [xs[0]] + xs[1..];
      PullCons(xs[0], xs[1..], v);
    }
  }

  /** Pushing a video that was absent and then pulling it restores the list. */
  lemma PullUndoesPush<T>(xs: seq<T>, v: T)
    requires v !in xs
    ensures Pull(xs + [v], v) == xs
  {
    PullDistributes(xs, [v], v);
    assert Pull([v], v) == Pull([], v);
  }

}
