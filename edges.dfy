/** The relationship toggle shared by likes and subscriptions: an edge
    collection is a map from record id to the record, which is the edge
    itself; toggling deletes the edge if a record of it exists and creates it
    under a new id otherwise. */
module Edges {

  /** At most one record of edge e. */
  ghost predicate AtMostOne<E(!new)>(m: map<nat, E>, e: E) {
    forall a, b :: a in m && b in m && m[a] == e && m[b] == e ==> a == b
  }

  /** The collection with every record of edge e deleted. */
  function Without<E(==)>(m: map<nat, E>, e: E): (r: map<nat, E>)
    ensures e !in r.Values
    ensures forall k :: k in r <==> k in m && m[k] != e
    ensures forall k :: k in r ==> r[k] == m[k]
  {
    map k | k in m && m[k] != e :: m[k]
  }

  /** Deleting the one record of e (`existing.deleteOne()`) is deleting edge e. */
  lemma RemoveOnlyRecord<E(!new)>(m: map<nat, E>, e: E, k: nat)
    requires k in m && m[k] == e && AtMostOne(m, e)
    ensures m - {k} == Without(m, e)
  {
    var w := Without(m, e);
    forall j ensures j in m - {k} <==> j in w {
      if j in m && m[j] == e { assert j == k; }
    }
  }

  /** The toggle: delete e when a record of it exists, else create it under `newId`. */
  function Toggled<E(==,!new)>(m: map<nat, E>, e: E, newId: nat): (r: map<nat, E>)
    requires newId !in m
    ensures e in r.Values <==> e !in m.Values
    ensures forall x :: x != e ==> (x in r.Values <==> x in m.Values)
    ensures forall k :: k in m && m[k] != e ==> k in r && r[k] == m[k]
    ensures forall k :: k in r && k != newId ==> k in m && r[k] == m[k]
  {
    if e in m.Values then Without(m, e)
    else
      var r := m[newId := e];
      assert forall x :: x in r.Values <==> x in m.Values || x == e by {
        forall x | x in r.Values ensures x in m.Values || x == e {
          var k :| k in r && r[k] == x;
          if k != newId { assert k in m && m[k] == x; }
        }
        forall x | x in m.Values ensures x in r.Values {
          var k :| k in m && m[k] == x;
          assert k != newId && k in r && r[k] == x;
        }
        assert r[newId] == e;
      }
      r
  }

  /** Toggling keeps every edge at most once. */
  lemma ToggledKeepsAtMostOne<E(!new)>(m: map<nat, E>, e: E, newId: nat, x: E)
    requires newId !in m && AtMostOne(m, x)
    ensures AtMostOne(Toggled(m, e, newId), x)
  {
    var r := Toggled(m, e, newId);
    assert forall k :: k in m ==> m[k] in m.Values;
    if e !in m.Values {
      assert forall a :: a in r && r[a] == e ==> a == newId;
    }
  }

  /** Two consecutive toggles of one edge give back the original edge set;
      starting from an absent edge they give back the very same collection. */
  lemma {:induction false} ToggleTwice<E(!new)>(m: map<nat, E>, e: E, id1: nat, id2: nat)
    requires id1 !in m && id2 !in m && id2 != id1
    ensures id2 !in Toggled(m, e, id1)
    ensures Toggled(Toggled(m, e, id1), e, id2).Values == m.Values
    ensures e !in m.Values ==> Toggled(Toggled(m, e, id1), e, id2) == m
  {
    var once := Toggled(m, e, id1);
    var twice := Toggled(once, e, id2);
    forall x ensures x in twice.Values <==> x in m.Values {
      if x == e {
        assert e in twice.Values <==> e !in once.Values;
      }
    }
    if e !in m.Values {
      assert once == m[id1 := e];
      assert twice == Without(once, e);
      forall k ensures k in twice <==> k in m {
        if k in m { assert m[k] != e by { assert m[k] in m.Values; } }
      }
      assert forall k :: k in twice ==> twice[k] == m[k];
    }
  }
}
