/** Keeping what there is of a list of optional parts, and what that is. */
module Picking {
  import opened Wrappers

  /** `filter_map` */
  function Present<T>(parts: seq<Option<T>>): seq<T> {
    if parts == [] then []
    else Present(parts[..|parts| - 1])
         + match parts[|parts| - 1] case None => [] case Some(part) => [part]
  }

  /** `items` is one item for each part there is, in order, and none for the rest; `places` says
      whose. */
  predicate Picks<T(==)>(parts: seq<Option<T>>, items: seq<T>, places: seq<nat>) {
    && |items| == |places|
    && (forall i :: 0 <= i < |parts| ==> (parts[i].Some? <==> i in places))
    && (forall k :: 0 <= k < |places| ==> places[k] < |parts| && parts[places[k]] == Some(items[k]))
    && (forall k, l :: 0 <= k < l < |places| ==> places[k] < places[l])
  }

  lemma {:induction false} PresentPicks<T>(parts: seq<Option<T>>) returns (places: seq<nat>)
    ensures Picks(parts, Present(parts), places)
  {
    places := [];
    if parts != [] {
      var n := |parts| - 1;
      places := PresentPicks(parts[..n]);
      assert parts[..n] + [parts[n]] == parts;
      PicksGrow(parts[..n], parts[n], Present(parts[..n]), places);
      if parts[n].Some? {
        places := places + [n];
      }
    }
  }

  lemma PicksGrow<T>(parts: seq<Option<T>>, part: Option<T>, items: seq<T>, places: seq<nat>)
    requires Picks(parts, items, places)
    ensures match part
            case None => Picks(parts + [part], items, places)
            case Some(item) => Picks(parts + [part], items + [item], places + [|parts|])
  {
    if part.Some? {
      var more := places + [|parts|];
      assert more[|places|] == |parts|;
      forall i | i in places ensures i in more {
        var k :| 0 <= k < |places| && places[k] == i;
        assert more[k] == i;
      }
    }
  }

  /** Nothing else picks the parts there are. */
  lemma PicksUnique<T>(parts: seq<Option<T>>, a: seq<T>, b: seq<T>, p: seq<nat>, q: seq<nat>)
    requires Picks(parts, a, p) && Picks(parts, b, q)
    ensures a == b
  {
    SamePlaces(p, q);
  }

  /** A strictly increasing sequence is its elements. */
  lemma {:induction false} SamePlaces(p: seq<nat>, q: seq<nat>)
    requires forall k, l :: 0 <= k < l < |p| ==> p[k] < p[l]
    requires forall k, l :: 0 <= k < l < |q| ==> q[k] < q[l]
    requires forall i :: i in p <==> i in q
    ensures p == q
  {
    assert p != [] ==> p[0] in q;
    assert q != [] ==> q[0] in p;
    if p != [] && q != [] {
      assert p[0] == q[0];
      forall i ensures i in p[1..] <==> i in q[1..] {
        if i in p[1..] { assert i in q && i != q[0]; }
        if i in q[1..] { assert i in p && i != p[0]; }
      }
      SamePlaces(p[1..], q[1..]);
      assert p == [p[0]] + p[1..] && q == [q[0]] + q[1..];
    }
  }
}
