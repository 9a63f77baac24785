/** Ordered, limited queries (app/repositories/dispatch.py) and the nearby list (app/services/dispatch.py). */
module Listing {
  import opened Basics

  // ---------------------------------------------------------------- a stable sort

  /** An element with its sort key and its place in the input. */
  datatype Entry = Entry(key: int, place: nat)

  predicate Before(a: Entry, b: Entry) {
    a.key < b.key || (a.key == b.key && a.place < b.place)
  }

  /** By key, and in input order among equal keys; so no entry occurs twice. */
  ghost predicate Ordered(s: seq<Entry>) {
    forall i, j | 0 <= i < j < |s| :: Before(s[i], s[j])
  }

  ghost predicate InPlaceOrder(s: seq<Entry>) {
    forall i, j | 0 <= i < j < |s| :: s[i].place < s[j].place
  }

  /** Puts `x` behind every entry whose key is not larger. */
  function Insert(s: seq<Entry>, x: Entry): seq<Entry> {
    if s == [] || s[|s| - 1].key <= x.key then s + [x]
    else Insert(s[..|s| - 1], x) + [s[|s| - 1]]
  }

  /** Sorting by key alone. */
  function Sort(s: seq<Entry>): seq<Entry> {
    if s == [] then [] else Insert(Sort(s[..|s| - 1]), s[|s| - 1])
  }

  lemma {:induction false} InsertAdds(s: seq<Entry>, x: Entry)
    ensures |Insert(s, x)| == |s| + 1
    ensures forall e :: e in Insert(s, x) <==> e in s || e == x
  {
    if s == [] || s[|s| - 1].key <= x.key {
    } else {
      assert s == s[..|s| - 1] + [s[|s| - 1]];
      InsertAdds(s[..|s| - 1], x);
    }
  }

  lemma {:induction false} InsertOrdered(s: seq<Entry>, x: Entry)
    requires Ordered(s) && forall e | e in s :: e.place < x.place
    ensures Ordered(Insert(s, x))
  {
    if s == [] || s[|s| - 1].key <= x.key {
    } else {
      var front, last := s[..|s| - 1], s[|s| - 1];
      InsertOrdered(front, x);
      InsertAdds(front, x);
      var t := Insert(front, x);
      forall i | 0 <= i < |t| ensures Before(t[i], last) {
        assert t[i] in t;
        if t[i] != x {
          var k :| 0 <= k < |front| && front[k] == t[i];
          assert Before(s[k], s[|s| - 1]);
        }
      }
    }
  }

  /** The sort keeps exactly the given entries and is stable. */
  lemma {:induction false} SortIsStable(s: seq<Entry>)
    requires InPlaceOrder(s)
    ensures Ordered(Sort(s)) && |Sort(s)| == |s|
    ensures forall e :: e in Sort(s) <==> e in s
  {
    if s == [] {
    } else {
      var front, x := s[..|s| - 1], s[|s| - 1];
      assert s == front + [x];
      SortIsStable(front);
      InsertAdds(Sort(front), x);
      InsertOrdered(Sort(front), x);
    }
  }

  function Take(s: seq<Entry>, limit: nat): seq<Entry> {
    if |s| <= limit then s else s[..limit]
  }

  /** Cutting an ordered list drops only entries that come after everything kept. */
  lemma TakeKeepsFirst(s: seq<Entry>, limit: nat, kept: Entry, dropped: Entry)
    requires Ordered(s) && kept in Take(s, limit) && dropped in s && dropped !in Take(s, limit)
    ensures Before(kept, dropped)
  {
  }

  // ---------------------------------------------------------------- queries

  /** The matching rows of a table: row i matches with sort key k when keys[i] is Some(k). */
  function Matching(keys: seq<Option<int>>): seq<Entry> {
    if keys == [] then []
    else
      var last := keys[|keys| - 1];
      Matching(keys[..|keys| - 1]) + if last.Some? then [Entry(last.value, |keys| - 1)] else []
  }

  lemma {:induction false} MatchingRows(keys: seq<Option<int>>, e: Entry)
    ensures e in Matching(keys) <==> e.place < |keys| && keys[e.place] == Some(e.key)
  {
    if keys == [] {
    } else {
      MatchingRows(keys[..|keys| - 1], e);
    }
  }

  lemma {:induction false} MatchingInOrder(keys: seq<Option<int>>)
    ensures InPlaceOrder(Matching(keys))
  {
    if keys == [] {
    } else {
      var front := keys[..|keys| - 1];
      MatchingInOrder(front);
      forall i | 0 <= i < |Matching(front)| ensures Matching(front)[i].place < |front| {
        MatchingRows(front, Matching(front)[i]);
      }
    }
  }

  /** The matching rows, in row order. */
  lemma MatchingAre(keys: seq<Option<int>>)
    ensures forall e :: e in Matching(keys) <==> e.place < |keys| && keys[e.place] == Some(e.key)
    ensures InPlaceOrder(Matching(keys))
  {
    forall e ensures e in Matching(keys) <==> e.place < |keys| && keys[e.place] == Some(e.key) {
      MatchingRows(keys, e);
    }
    MatchingInOrder(keys);
  }

  /** SELECT ... WHERE ... ORDER BY key LIMIT limit; equal keys are taken in row order. */
  function Query(keys: seq<Option<int>>, limit: nat): seq<Entry> {
    Take(Sort(Matching(keys)), limit)
  }

  /** A query returns matching rows in order, as many as match up to the limit, and omits none that sorts first. */
  lemma QueryIs(keys: seq<Option<int>>, limit: nat)
    ensures var rows := Query(keys, limit);
            && Ordered(rows) && |rows| == Min(limit, |Matching(keys)|)
            && (forall e | e in rows :: e in Matching(keys))
            && (forall kept, dropped | kept in rows && dropped in Matching(keys) && dropped !in rows ::
                  Before(kept, dropped))
  {
    MatchingAre(keys);
    SortIsStable(Matching(keys));
    var sorted := Sort(Matching(keys));
    forall kept, dropped | kept in Take(sorted, limit) && dropped in sorted && dropped !in Take(sorted, limit)
      ensures Before(kept, dropped)
    {
      TakeKeepsFirst(sorted, limit, kept, dropped);
    }
  }

  /** When the limit is not reached every matching row is returned. */
  lemma QueryReturnsAll(keys: seq<Option<int>>, limit: nat, i: nat)
    requires |Matching(keys)| <= limit && i < |keys| && keys[i].Some?
    ensures Entry(keys[i].value, i) in Query(keys, limit)
  {
    MatchingAre(keys);
    SortIsStable(Matching(keys));
  }

  // ---------------------------------------------------------------- requests near a driver

  /** Python's round(d, 2) in hundredths: to the nearest, ties to even. */
  function Hundredths(d: real): int {
    var f := (100.0 * d).Floor;
    var rest := 100.0 * d - f as real;
    if rest < 0.5 then f else if rest > 0.5 then f + 1 else if f % 2 == 0 then f else f + 1
  }

  /** The nearest hundredth, and the even one of two equally near. */
  lemma HundredthsNearest(d: real)
    ensures -0.5 <= Hundredths(d) as real - 100.0 * d <= 0.5
    ensures Hundredths(d) as real - 100.0 * d in {-0.5, 0.5} ==> Hundredths(d) % 2 == 0
  {
  }

  lemma HundredthsMonotone(d: real, e: real)
    requires d <= e
    ensures Hundredths(d) <= Hundredths(e)
  {
    HundredthsNearest(d);
    HundredthsNearest(e);
  }

  /** What is not farther after rounding is at most a hundredth farther. */
  lemma HundredthsTell(d: real, e: real)
    requires Hundredths(d) <= Hundredths(e)
    ensures d <= e + 0.01
  {
    HundredthsNearest(d);
    HundredthsNearest(e);
  }

  /** The examined requests within the radius, keyed by their rounded distance. */
  function InRadius(distances: seq<real>, radius: real): seq<Option<int>> {
    seq(|distances|, i requires 0 <= i < |distances| =>
      if distances[i] <= radius then Some(Hundredths(distances[i])) else None)
  }

  /** The list a driver gets, given the distances of the newest open requests. */
  function NearbyList(distances: seq<real>, radius: real, limit: nat): seq<Entry> {
    Query(InRadius(distances, radius), limit)
  }

  /** The distances in the order the list shows them, and the loop, sort and slice that build the list. */
  method BuildNearby(distances: seq<real>, radius: real, limit: nat) returns (nearby: seq<Entry>)
    ensures nearby == NearbyList(distances, radius, limit)
  {
    nearby := [];
    for i := 0 to |distances|
      invariant nearby == Matching(InRadius(distances, radius)[..i])
    {
      var keys := InRadius(distances, radius);
      assert keys[..i + 1][..i] == keys[..i];
      if distances[i] <= radius {
        nearby := nearby + [Entry(Hundredths(distances[i]), i)];
      }
    }
    assert InRadius(distances, radius)[..|distances|] == InRadius(distances, radius);
    nearby := Sort(nearby);
    nearby := Take(nearby, limit);
  }
}
