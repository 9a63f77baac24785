/** Ride requests over whole runs: matching, expiry and the nearby list of app/services/dispatch.py. */
module Dispatching {
  import opened Basics
  import opened Listing
  import opened Trips
  import opened TripRuns
  import opened TripHistory

  // ---------------------------------------------------------------- integrity

  /**
   * The three matched ids are set together, exactly for matched requests, and name the passenger's booking on the
   * driver's ride.
   */
  ghost predicate MatchOk(db: Db, q: RideRequest) {
    && (q.status == Matched <==> q.driver.Some?)
    && (q.driver.Some? <==> q.ride.Some?)
    && (q.ride.Some? <==> q.booking.Some?)
    && (q.status == Matched ==>
          && q.ride.value < |db.rides| && q.booking.value < |db.bookings|
          && db.rides[q.ride.value].driver == q.driver.value
          && db.bookings[q.booking.value].ride == q.ride.value
          && db.bookings[q.booking.value].passenger == q.passenger)
  }

  ghost predicate OneOpenEach(requests: seq<RideRequest>) {
    forall i, j | 0 <= i < j < |requests| && requests[i].status == Open && requests[j].status == Open ::
      requests[i].passenger != requests[j].passenger
  }

  ghost predicate DistinctMatches(requests: seq<RideRequest>) {
    forall i, j | 0 <= i < j < |requests| && requests[i].status == Matched && requests[j].status == Matched ::
      requests[i].ride != requests[j].ride && requests[i].booking != requests[j].booking
  }

  ghost predicate Integrity(db: Db) {
    && OneOpenEach(db.requests) && DistinctMatches(db.requests)
    && forall q | 0 <= q < |db.requests| :: MatchOk(db, db.requests[q])
  }

  lemma SameRequestsIntegrity(before: Db, after: Db)
    requires Integrity(before) && Evolves(before, after) && after.requests == before.requests
    ensures Integrity(after)
  {
  }

  /** Closing open requests keeps the integrity. */
  lemma ClosingIntegrity(db: Db, requests: seq<RideRequest>)
    requires Integrity(db) && |requests| == |db.requests|
    requires forall q | 0 <= q < |requests| ::
               requests[q] == db.requests[q]
               || (db.requests[q].status == Open
                   && requests[q] == db.requests[q].(status := requests[q].status)
                   && requests[q].status in {RequestCancelled, RequestExpired})
    ensures Integrity(db.(requests := requests))
  {
  }

  lemma ExpireIntegrity(db: Db, now: int, limit: nat)
    requires Integrity(db)
    ensures Integrity(Expire(db, now, limit))
  {
    forall q | 0 <= q < |db.requests| && OnPage(ExpirablePage(db.requests, now, limit), q)
      ensures db.requests[q].status == Open
    {
      PageIsStale(db.requests, now, limit, q);
    }
    ClosingIntegrity(db, Expire(db, now, limit).requests);
  }

  lemma CreateRequestIntegrity(db: Db, u: User, departure: int, now: int)
    requires Integrity(db)
    ensures Integrity(CreateRequest(db, u, departure, now).db)
  {
    ExpireIntegrity(db, now, EXPIRY_LIMIT);
    var swept := Expire(db, now, EXPIRY_LIMIT);
    var requests := swept.requests + [NewRequest(u.id, departure, now)];
    if CreateRequest(db, u, departure, now).outcome == Done {
      forall q | 0 <= q < |requests| ensures MatchOk(swept.(requests := requests), requests[q]) {
        if q < |swept.requests| {
          assert MatchOk(swept, swept.requests[q]);
        }
      }
    }
  }

  lemma CancelRequestIntegrity(db: Db, u: User, q: nat, now: int)
    requires Integrity(db)
    ensures Integrity(CancelRequest(db, u, q, now).db)
  {
    ExpireIntegrity(db, now, EXPIRY_LIMIT);
    var swept := Expire(db, now, EXPIRY_LIMIT);
    if CancelRequest(db, u, q, now).outcome == Done {
      ClosingIntegrity(swept, swept.requests[q := swept.requests[q].(status := RequestCancelled)]);
    }
  }

  lemma MatchIntegrity(db: Db, driver: nat, q: nat, distance: real)
    requires Integrity(db) && q < |db.requests| && db.requests[q].status == Open
    ensures Integrity(MatchRequest(db, driver, q, distance))
  {
  }

  lemma AcceptRequestIntegrity(db: Db, u: User, q: nat, present: bool, distance: real, now: int)
    requires Integrity(db)
    ensures Integrity(AcceptRequest(db, u, q, present, distance, now).db)
  {
    ExpireIntegrity(db, now, EXPIRY_LIMIT);
    if AcceptRequest(db, u, q, present, distance, now).outcome == Done {
      MatchIntegrity(Expire(db, now, EXPIRY_LIMIT), u.id, q, distance);
    }
  }

  predicate TouchesRequests(a: Action) {
    a.DoCreateRequest? || a.DoCancelRequest? || a.DoAcceptRequest? || a.DoExpire?
  }

  lemma OthersKeepRequests(db: Db, a: Action)
    requires !TouchesRequests(a)
    ensures Perform(db, a).db.requests == db.requests
  {
  }

  lemma {:induction false} StepIntegrity(w: World, a: Action)
    requires Inv(w) && Integrity(w.db)
    ensures Integrity(Next(w, a).db)
  {
    if !TouchesRequests(a) {
      StepEvolves(w, a);
      OthersKeepRequests(w.db, a);
      SameRequestsIntegrity(w.db, Next(w, a).db);
    } else if a.DoCreateRequest? {
      CreateRequestIntegrity(w.db, a.user, a.departure, a.now);
    } else if a.DoCancelRequest? {
      CancelRequestIntegrity(w.db, a.user, a.q, a.now);
    } else if a.DoAcceptRequest? {
      AcceptRequestIntegrity(w.db, a.user, a.q, a.present, a.distance, a.now);
    } else {
      ExpireIntegrity(w.db, a.now, a.limit);
    }
  }

  /**
   * In every reachable state a passenger has at most one open request; a request is matched exactly when all three
   * matched ids are set, and they name a booking of that passenger on a ride of that driver; and different matched
   * requests have different rides and bookings.
   */
  lemma {:induction false} DispatchIntegrity(run: seq<Action>)
    requires LegalRun(run)
    ensures Integrity(After(START, run).db)
  {
    if run == [] {
    } else {
      var front := run[..|run| - 1];
      DispatchIntegrity(front);
      Reachable(front);
      StepIntegrity(After(START, front), run[|run| - 1]);
    }
  }

  // ---------------------------------------------------------------- expiry

  predicate Stale(q: RideRequest, now: int) {
    q.status == Open && q.departure < now
  }

  ghost function StaleSet(requests: seq<RideRequest>, now: int): set<nat> {
    set i: nat | i < |requests| && Stale(requests[i], now)
  }

  ghost function Places(s: seq<Entry>): set<nat> {
    set k | 0 <= k < |s| :: s[k].place
  }

  ghost predicate DistinctPlaces(s: seq<Entry>) {
    forall i, j | 0 <= i < j < |s| :: s[i].place != s[j].place
  }

  lemma {:induction false} PlacesCount(s: seq<Entry>)
    requires DistinctPlaces(s)
    ensures |Places(s)| == |s|
  {
    if s == [] {
    } else {
      var front, last := s[..|s| - 1], s[|s| - 1];
      PlacesCount(front);
      assert Places(s) == Places(front) + {last.place};
      assert last.place !in Places(front);
    }
  }

  /** The stale requests in the order a pass takes them, each once. */
  ghost function StaleOrder(requests: seq<RideRequest>, now: int): seq<Entry> {
    Sort(Matching(StaleKeys(requests, now)))
  }

  lemma StaleOrderIs(requests: seq<RideRequest>, now: int)
    ensures var order := StaleOrder(requests, now);
            && Ordered(order) && DistinctPlaces(order)
            && forall e :: e in order <==>
                 e.place < |requests| && Stale(requests[e.place], now) && e.key == -requests[e.place].departure
  {
    var order := StaleOrder(requests, now);
    MatchingAre(StaleKeys(requests, now));
    SortIsStable(Matching(StaleKeys(requests, now)));
    forall i, k | 0 <= i < k < |order| ensures order[i].place != order[k].place {
      assert order[i] in order && order[k] in order && Before(order[i], order[k]);
    }
  }

  lemma StaleOrderSize(requests: seq<RideRequest>, now: int)
    ensures Places(StaleOrder(requests, now)) == StaleSet(requests, now)
    ensures |StaleOrder(requests, now)| == |StaleSet(requests, now)|
  {
    var order := StaleOrder(requests, now);
    StaleOrderIs(requests, now);
    PlacesCount(order);
    forall i: nat ensures i in Places(order) <==> i in StaleSet(requests, now) {
      if i in StaleSet(requests, now) {
        assert Entry(-requests[i].departure, i) in order;
      }
    }
  }

  /** The page holds stale requests only, each once, and as many as the limit allows. */
  lemma PageSize(requests: seq<RideRequest>, now: int, limit: nat)
    ensures var page := ExpirablePage(requests, now, limit);
            && DistinctPlaces(page) && Places(page) <= StaleSet(requests, now)
            && |page| == |Places(page)| == Min(limit, |StaleSet(requests, now)|)
  {
    var order, page := StaleOrder(requests, now), ExpirablePage(requests, now, limit);
    StaleOrderIs(requests, now);
    StaleOrderSize(requests, now);
    assert page <= order;
    PlacesCount(page);
    forall i | i in Places(page) ensures i in Places(order) {
      var k :| 0 <= k < |page| && page[k].place == i;
      assert order[k].place == i;
    }
  }

  /** Each pass closes exactly min(limit, stale) requests: that many fewer are stale, and no other row changes. */
  lemma ExpiryClosesExactly(db: Db, now: int, limit: nat)
    ensures var before, after := db.requests, Expire(db, now, limit).requests;
            && |after| == |before|
            && StaleSet(after, now) <= StaleSet(before, now)
            && |StaleSet(after, now)| == |StaleSet(before, now)| - Min(limit, |StaleSet(before, now)|)
            && (forall i: nat | i < |before| && !(i in StaleSet(before, now) - StaleSet(after, now)) ::
                  after[i] == before[i])
            && (forall i: nat | i in StaleSet(before, now) - StaleSet(after, now) ::
                  after[i] == before[i].(status := RequestExpired))
  {
    var before, after := db.requests, Expire(db, now, limit).requests;
    var page := ExpirablePage(before, now, limit);
    PageSize(before, now, limit);
    forall i: nat | i < |before| ensures OnPage(page, i) <==> i in Places(page) {
    }
    assert StaleSet(after, now) == StaleSet(before, now) - Places(page);
    assert StaleSet(before, now) - StaleSet(after, now) == Places(page);
  }

  /** The stale requests an expiry pass takes before request q: later departures, and earlier rows among equal ones. */
  ghost function StaleBefore(requests: seq<RideRequest>, now: int, q: nat): set<nat>
    requires q < |requests|
  {
    set i: nat |
      && i < |requests| && Stale(requests[i], now)
      && (requests[i].departure > requests[q].departure || (requests[i].departure == requests[q].departure && i < q))
  }

  lemma StalePlace(requests: seq<RideRequest>, now: int, j: nat, i: nat)
    requires j < |StaleOrder(requests, now)| && StaleOrder(requests, now)[j].place < |requests|
    ensures i in StaleBefore(requests, now, StaleOrder(requests, now)[j].place)
            <==> i in Places(StaleOrder(requests, now)[..j])
  {
    var order := StaleOrder(requests, now);
    StaleOrderIs(requests, now);
    assert order[j] in order;
    if i in Places(order[..j]) {
      var k :| 0 <= k < j && order[..j][k].place == i;
      assert order[k] in order && Before(order[k], order[j]);
    }
    if i in StaleBefore(requests, now, order[j].place) {
      assert Entry(-requests[i].departure, i) in order;
      var k :| 0 <= k < |order| && order[k] == Entry(-requests[i].departure, i);
      assert Before(order[k], order[j]) && !Before(order[j], order[k]);
      assert k < j;
      assert order[..j][k].place == i;
    }
  }

  lemma StaleIndex(requests: seq<RideRequest>, now: int, j: nat)
    requires j < |StaleOrder(requests, now)| && StaleOrder(requests, now)[j].place < |requests|
    ensures |StaleBefore(requests, now, StaleOrder(requests, now)[j].place)| == j
  {
    var order := StaleOrder(requests, now);
    forall i: nat ensures i in StaleBefore(requests, now, order[j].place) <==> i in Places(order[..j]) {
      StalePlace(requests, now, j, i);
    }
    assert StaleBefore(requests, now, order[j].place) == Places(order[..j]);
    StaleOrderIs(requests, now);
    PlacesCount(order[..j]);
  }

  /** A pass closes a stale request exactly when it takes fewer than `limit` others before it. */
  lemma ClosedIff(requests: seq<RideRequest>, now: int, limit: nat, q: nat)
    requires q < |requests| && Stale(requests[q], now)
    ensures OnPage(ExpirablePage(requests, now, limit), q) <==> |StaleBefore(requests, now, q)| < limit
  {
    var order, page := StaleOrder(requests, now), ExpirablePage(requests, now, limit);
    StaleOrderIs(requests, now);
    assert Entry(-requests[q].departure, q) in order;
    var j :| 0 <= j < |order| && order[j] == Entry(-requests[q].departure, q);
    StaleIndex(requests, now, j);
    if j < limit {
      assert page[j].place == q;
    } else {
      forall k | 0 <= k < |page| ensures page[k].place != q {
        assert page[k] == order[k];
      }
    }
  }

  /** Exactly when a match takes a request whose departure is past: 500 other stale ones come before it. */
  lemma MatchTakesStaleIff(db: Db, u: User, q: nat, present: bool, distance: real, now: int)
    requires q < |db.requests| && Stale(db.requests[q], now)
    ensures AcceptRequest(db, u, q, present, distance, now).outcome == Done
            <==> && u.role == Driver && u.verified && present && distance <= RADIUS_KM
                 && |StaleBefore(db.requests, now, q)| >= 500
  {
    ClosedIff(db.requests, now, EXPIRY_LIMIT, q);
  }

  function Ask(passenger: nat): Action {
    DoCreateRequest(User(passenger, Passenger, true), 0, 0)
  }

  /** Passengers 0 to n - 1 each ask, at time 0, for a ride that departs at once. */
  function Asking(n: nat): seq<Action> {
    seq(n, i requires 0 <= i < n => Ask(i))
  }

  function Asked(n: nat): seq<RideRequest> {
    seq(n, i requires 0 <= i < n => NewRequest(i, 0, 0))
  }

  /** While the departures are not past, a pass closes nothing. */
  lemma NothingStale(db: Db, n: nat)
    requires db.requests == Asked(n)
    ensures Expire(db, 0, EXPIRY_LIMIT) == db
  {
    forall q: nat | q < n ensures !OnPage(ExpirablePage(db.requests, 0, EXPIRY_LIMIT), q) {
      if OnPage(ExpirablePage(db.requests, 0, EXPIRY_LIMIT), q) {
        PageIsStale(db.requests, 0, EXPIRY_LIMIT, q);
      }
    }
    assert Expire(db, 0, EXPIRY_LIMIT).requests == db.requests;
  }

  lemma AskOne(db: Db, n: nat)
    requires db.requests == Asked(n)
    ensures Perform(db, Ask(n)).db == db.(requests := Asked(n + 1))
  {
    NothingStale(db, n);
    assert !HasOpen(db.requests, n);
    assert Asked(n + 1) == Asked(n) + [NewRequest(n, 0, 0)];
  }

  lemma AskStep(w: World, n: nat)
    requires w.db == EMPTY.(requests := Asked(n))
    ensures Next(w, Ask(n)).db == EMPTY.(requests := Asked(n + 1))
  {
    AskOne(w.db, n);
  }

  lemma {:induction false} AskingRequests(n: nat)
    ensures After(START, Asking(n)).db == EMPTY.(requests := Asked(n))
  {
    if n == 0 {
      assert Asking(0) == [] && Asked(0) == [];
    } else {
      AskingRequests(n - 1);
      AskStep(After(START, Asking(n - 1)), n - 1);
      assert Asking(n) == Asking(n - 1) + [Ask(n - 1)];
      AfterOneMore(START, Asking(n - 1), Ask(n - 1));
    }
  }

  ghost function Below(n: nat): set<nat> {
    if n == 0 then {} else Below(n - 1) + {n - 1}
  }

  lemma {:induction false} BelowCount(n: nat)
    ensures |Below(n)| == n && forall i: nat :: i in Below(n) <==> i < n
  {
    if n == 0 {
    } else {
      BelowCount(n - 1);
    }
  }

  lemma AllBefore(db: Db, n: nat, u: User)
    requires db.requests == Asked(n + 1) && n >= EXPIRY_LIMIT && u.role == Driver && u.verified
    ensures Stale(db.requests[n], 1) && AcceptRequest(db, u, n, true, 0.0, 1).outcome == Done
  {
    BelowCount(n);
    assert StaleBefore(db.requests, 1, n) == Below(n);
    MatchTakesStaleIff(db, u, n, true, 0.0, 1);
  }

  /** Such a state is reachable: 501 requests, one second after their departure, and a driver takes the last one. */
  lemma {:induction false} StaleCanBeMatched()
    ensures LegalRun(Asking(501))
    ensures var db := After(START, Asking(501)).db;
            && |db.requests| == 501 && Stale(db.requests[500], 1)
            && AcceptRequest(db, User(1000, Driver, true), 500, true, 0.0, 1).outcome == Done
  {
    AskingRequests(501);
    AllBefore(After(START, Asking(501)).db, 500, User(1000, Driver, true));
  }

  /** So when no more requests are stale than a pass closes, a match never takes one whose departure is past. */
  lemma MatchIsNotStale(db: Db, u: User, q: nat, present: bool, distance: real, now: int)
    requires |StaleSet(db.requests, now)| <= 500
    requires AcceptRequest(db, u, q, present, distance, now).outcome == Done
    ensures q < |db.requests| && db.requests[q].status == Open && db.requests[q].departure >= now
  {
    ExpiryClosesExactly(db, now, EXPIRY_LIMIT);
    var after := Expire(db, now, EXPIRY_LIMIT).requests;
    assert StaleSet(after, now) == {};
    assert q !in StaleSet(after, now);
  }

  // ---------------------------------------------------------------- requests near a driver

  /** The newest undismissed open requests a driver's list is made from: four times as many as are shown. */
  function Examined(requests: seq<RideRequest>, dismissed: set<nat>, limit: nat): seq<Entry> {
    Query(OpenKeys(requests, dismissed), 4 * limit)
  }

  function Distances(examined: seq<Entry>, distance: nat -> real): seq<real> {
    seq(|examined|, k requires 0 <= k < |examined| => distance(examined[k].place))
  }

  /** The list as (examined position, rounded distance) entries; `examined[e.place].place` is the request. */
  function Nearby(requests: seq<RideRequest>, dismissed: set<nat>, distance: nat -> real, limit: nat): seq<Entry> {
    NearbyList(Distances(Examined(requests, dismissed, limit), distance), RADIUS_KM, limit)
  }

  /** The entry is an open, undismissed request. */
  ghost predicate OpenFor(requests: seq<RideRequest>, dismissed: set<nat>, q: nat) {
    q < |requests| && requests[q].status == Open && q !in dismissed
  }

  /** Nearer after rounding, or equally near and at least as new. */
  ghost predicate ComesFirst(requests: seq<RideRequest>, examined: seq<Entry>, a: Entry, b: Entry) {
    && a.place < |examined| && b.place < |examined|
    && var p, q := examined[a.place].place, examined[b.place].place;
       && p < |requests| && q < |requests|
       && (a.key < b.key || (a.key == b.key && requests[p].createdAt >= requests[q].createdAt))
  }

  /**
   * The nearby list is a stable top-`limit` of the examined window: each item is an open, undismissed request within
   * the radius with its rounded distance; items are ordered by it, ties newest first; and an examined request within
   * the radius that is not listed is at least as far, after rounding, as every listed one, and there is none when the
   * list is shorter than the limit.
   */
  lemma NearbyIsTop(requests: seq<RideRequest>, dismissed: set<nat>, distance: nat -> real, limit: nat)
    ensures var examined := Examined(requests, dismissed, limit);
            var list := Nearby(requests, dismissed, distance, limit);
            && |list| <= limit
            && (forall e | e in list ::
                  ListedFrom(examined, distance, e) && OpenFor(requests, dismissed, examined[e.place].place))
            && (forall i, j | 0 <= i < j < |list| :: ComesFirst(requests, examined, list[i], list[j]))
            && (forall k, e | 0 <= k < |examined| && distance(examined[k].place) <= RADIUS_KM && e in list
                    && Entry(Hundredths(distance(examined[k].place)), k) !in list ::
                  e.key <= Hundredths(distance(examined[k].place)))
            && (|list| < limit ==> forall k | 0 <= k < |examined| && distance(examined[k].place) <= RADIUS_KM ::
                  Entry(Hundredths(distance(examined[k].place)), k) in list)
  {
    NearbyItemsAre(requests, dismissed, distance, limit);
    NearbyOmits(Examined(requests, dismissed, limit), distance, limit);
  }

  /** In kilometres the first request is at most a hundredth farther than the second. */
  ghost predicate AtMostFarther(examined: seq<Entry>, distance: nat -> real, i: nat, k: nat) {
    i < |examined| && k < |examined| && distance(examined[i].place) <= distance(examined[k].place) + 0.01
  }

  /**
   * In kilometres: listed requests are within the radius, each is at most a hundredth farther than those listed after
   * it, and at most a hundredth farther than any examined request in the radius that is left out.
   */
  lemma NearbyInKilometres(requests: seq<RideRequest>, dismissed: set<nat>, distance: nat -> real, limit: nat)
    ensures var examined := Examined(requests, dismissed, limit);
            var list := Nearby(requests, dismissed, distance, limit);
            && (forall e | e in list :: e.place < |examined| && distance(examined[e.place].place) <= RADIUS_KM)
            && (forall i, j | 0 <= i < j < |list| :: AtMostFarther(examined, distance, list[i].place, list[j].place))
            && (forall k: nat, e | k < |examined| && distance(examined[k].place) <= RADIUS_KM && e in list
                    && !Lists(list, k) ::
                  AtMostFarther(examined, distance, e.place, k))
  {
    var examined := Examined(requests, dismissed, limit);
    var list := Nearby(requests, dismissed, distance, limit);
    NearbyIsTop(requests, dismissed, distance, limit);
    forall e | e in list ensures e.place < |examined| && distance(examined[e.place].place) <= RADIUS_KM {
      assert ListedFrom(examined, distance, e);
    }
    forall i, j | 0 <= i < j < |list| ensures AtMostFarther(examined, distance, list[i].place, list[j].place) {
      assert ComesFirst(requests, examined, list[i], list[j]);
      assert ListedFrom(examined, distance, list[i]) && ListedFrom(examined, distance, list[j]);
      HundredthsTell(distance(examined[list[i].place].place), distance(examined[list[j].place].place));
    }
    forall k: nat, e | k < |examined| && distance(examined[k].place) <= RADIUS_KM && e in list && !Lists(list, k)
      ensures AtMostFarther(examined, distance, e.place, k)
    {
      assert Entry(Hundredths(distance(examined[k].place)), k) !in list;
      assert ListedFrom(examined, distance, e);
      HundredthsTell(distance(examined[e.place].place), distance(examined[k].place));
    }
  }

  ghost predicate Lists(list: seq<Entry>, k: nat) {
    exists e :: e in list && e.place == k
  }

  lemma NearbyItemsAre(requests: seq<RideRequest>, dismissed: set<nat>, distance: nat -> real, limit: nat)
    ensures var examined := Examined(requests, dismissed, limit);
            var list := Nearby(requests, dismissed, distance, limit);
            && |list| <= limit
            && (forall e | e in list ::
                  ListedFrom(examined, distance, e) && OpenFor(requests, dismissed, examined[e.place].place))
            && (forall i, j | 0 <= i < j < |list| :: ComesFirst(requests, examined, list[i], list[j]))
  {
    var examined := Examined(requests, dismissed, limit);
    var list := Nearby(requests, dismissed, distance, limit);
    ExaminedAre(requests, dismissed, limit);
    QueryIs(InRadius(Distances(examined, distance), RADIUS_KM), limit);
    forall e | e in list
      ensures ListedFrom(examined, distance, e) && OpenFor(requests, dismissed, examined[e.place].place)
    {
      ListedItem(examined, distance, limit, e);
    }
    forall i, j | 0 <= i < j < |list| ensures ComesFirst(requests, examined, list[i], list[j]) {
      assert list[i] in list && list[j] in list;
      NearbyOrdered(examined, distance, limit, i, j);
      assert OpenFor(requests, dismissed, examined[list[i].place].place);
    }
  }

  lemma NearbyOmits(examined: seq<Entry>, distance: nat -> real, limit: nat)
    ensures var list := NearbyList(Distances(examined, distance), RADIUS_KM, limit);
            && (forall k, e | 0 <= k < |examined| && distance(examined[k].place) <= RADIUS_KM && e in list
                    && Entry(Hundredths(distance(examined[k].place)), k) !in list ::
                  e.key <= Hundredths(distance(examined[k].place)))
            && (|list| < limit ==> forall k | 0 <= k < |examined| && distance(examined[k].place) <= RADIUS_KM ::
                  Entry(Hundredths(distance(examined[k].place)), k) in list)
  {
    var list := NearbyList(Distances(examined, distance), RADIUS_KM, limit);
    forall k, e | 0 <= k < |examined| && distance(examined[k].place) <= RADIUS_KM && e in list
        && Entry(Hundredths(distance(examined[k].place)), k) !in list
      ensures e.key <= Hundredths(distance(examined[k].place))
    {
      OmittedItem(examined, distance, limit, k, e);
    }
    forall k | 0 <= k < |examined| && distance(examined[k].place) <= RADIUS_KM && |list| < limit
      ensures Entry(Hundredths(distance(examined[k].place)), k) in list
    {
      var keys := InRadius(Distances(examined, distance), RADIUS_KM);
      QueryIs(keys, limit);
      QueryReturnsAll(keys, limit, k);
    }
  }

  lemma NearbyOrdered(examined: seq<Entry>, distance: nat -> real, limit: nat, i: nat, j: nat)
    requires i < j < |NearbyList(Distances(examined, distance), RADIUS_KM, limit)|
    ensures var list := NearbyList(Distances(examined, distance), RADIUS_KM, limit);
            Before(list[i], list[j]) && |list| <= limit
  {
    QueryIs(InRadius(Distances(examined, distance), RADIUS_KM), limit);
  }

  /** The entry stands for an examined request within the radius and carries its rounded distance. */
  ghost predicate ListedFrom(examined: seq<Entry>, distance: nat -> real, e: Entry) {
    && e.place < |examined| && distance(examined[e.place].place) <= RADIUS_KM
    && e.key == Hundredths(distance(examined[e.place].place))
  }

  lemma ListedItem(examined: seq<Entry>, distance: nat -> real, limit: nat, e: Entry)
    requires e in NearbyList(Distances(examined, distance), RADIUS_KM, limit)
    ensures ListedFrom(examined, distance, e)
  {
    var keys := InRadius(Distances(examined, distance), RADIUS_KM);
    QueryIs(keys, limit);
    MatchingAre(keys);
    assert e in Matching(keys) && keys[e.place] == Some(e.key);
  }

  lemma OmittedItem(examined: seq<Entry>, distance: nat -> real, limit: nat, k: nat, e: Entry)
    requires k < |examined| && distance(examined[k].place) <= RADIUS_KM
    requires e in NearbyList(Distances(examined, distance), RADIUS_KM, limit)
    requires Entry(Hundredths(distance(examined[k].place)), k)
             !in NearbyList(Distances(examined, distance), RADIUS_KM, limit)
    ensures e.key <= Hundredths(distance(examined[k].place))
  {
    var keys := InRadius(Distances(examined, distance), RADIUS_KM);
    var dropped := Entry(Hundredths(distance(examined[k].place)), k);
    QueryIs(keys, limit);
    MatchingAre(keys);
    assert keys[k] == Some(dropped.key);
    assert dropped in Matching(keys);
    assert Before(e, dropped);
  }

  /** What an examined entry is, and when an open undismissed request is examined. */
  lemma ExaminedEntry(requests: seq<RideRequest>, dismissed: set<nat>, limit: nat)
    ensures var examined := Examined(requests, dismissed, limit);
            && Ordered(examined)
            && (forall k | 0 <= k < |examined| ::
                  && OpenFor(requests, dismissed, examined[k].place)
                  && examined[k].key == -requests[examined[k].place].createdAt)
            && (|examined| < 4 * limit ==> forall q: nat | OpenFor(requests, dismissed, q) ::
                  Entry(-requests[q].createdAt, q) in examined)
  {
    var keys := OpenKeys(requests, dismissed);
    var examined := Examined(requests, dismissed, limit);
    QueryIs(keys, 4 * limit);
    MatchingAre(keys);
    forall k | 0 <= k < |examined|
      ensures OpenFor(requests, dismissed, examined[k].place)
      ensures examined[k].key == -requests[examined[k].place].createdAt
    {
      assert examined[k] in examined;
      assert keys[examined[k].place] == Some(examined[k].key);
    }
    forall q: nat | OpenFor(requests, dismissed, q) && |examined| < 4 * limit
      ensures Entry(-requests[q].createdAt, q) in examined
    {
      QueryReturnsAll(keys, 4 * limit, q);
    }
  }

  lemma OmittedIsOlder(requests: seq<RideRequest>, dismissed: set<nat>, limit: nat, q: nat, e: Entry)
    requires OpenFor(requests, dismissed, q) && e in Examined(requests, dismissed, limit)
    requires Entry(-requests[q].createdAt, q) !in Examined(requests, dismissed, limit)
    ensures -requests[q].createdAt >= e.key
  {
    var keys := OpenKeys(requests, dismissed);
    QueryIs(keys, 4 * limit);
    MatchingAre(keys);
    assert keys[q] == Some(-requests[q].createdAt);
    assert Entry(-requests[q].createdAt, q) in Matching(keys);
    assert Before(e, Entry(-requests[q].createdAt, q));
  }

  /** The window is the newest of the open undismissed requests, newest first, and all of them when it is not full. */
  lemma ExaminedAre(requests: seq<RideRequest>, dismissed: set<nat>, limit: nat)
    ensures var examined := Examined(requests, dismissed, limit);
            && |examined| <= 4 * limit
            && (forall k | 0 <= k < |examined| :: OpenFor(requests, dismissed, examined[k].place))
            && (forall k, m | 0 <= k < m < |examined| ::
                  requests[examined[k].place].createdAt >= requests[examined[m].place].createdAt)
            && (forall q: nat, k | OpenFor(requests, dismissed, q) && 0 <= k < |examined|
                    && Entry(-requests[q].createdAt, q) !in examined ::
                  requests[q].createdAt <= requests[examined[k].place].createdAt)
            && (|examined| < 4 * limit ==> forall q: nat | OpenFor(requests, dismissed, q) ::
                  Entry(-requests[q].createdAt, q) in examined)
  {
    var examined := Examined(requests, dismissed, limit);
    ExaminedEntry(requests, dismissed, limit);
    forall k, m | 0 <= k < m < |examined|
      ensures requests[examined[k].place].createdAt >= requests[examined[m].place].createdAt
    {
      assert Before(examined[k], examined[m]);
    }
    forall q: nat, k | OpenFor(requests, dismissed, q) && 0 <= k < |examined|
        && Entry(-requests[q].createdAt, q) !in examined
      ensures requests[q].createdAt <= requests[examined[k].place].createdAt
    {
      OmittedIsOlder(requests, dismissed, limit, q, examined[k]);
    }
  }
}
