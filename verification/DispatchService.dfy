/** The dispatch operations of app/services/dispatch.py, on the session's tables. */
module DispatchService {
  import opened Basics
  import opened Database
  import opened Listing
  import opened Trips
  import Dispatching
  import TripRuns

  class Service {
    const db: Session

    constructor (db: Session)
      ensures this.db == db
    {
      this.db := db;
    }

    method ExpireStaleOpenRequests(now: int, limit: nat) returns (closed: nat)
      modifies db`requests
      ensures db.Rows() == Expire(old(db.Rows()), now, limit)
      ensures closed == |ExpirablePage(old(db.requests), now, limit)|
      ensures old(db.Valid()) ==> db.Valid()
    {
      if db.Valid() {
        TripRuns.StepCoherent(db.Rows(), TripRuns.DoExpire(now, limit));
      }
      var page := ExpirablePage(db.requests, now, limit);
      ghost var before := db.requests;
      PageInTable(before, now, limit);
      for k := 0 to |page|
        invariant db.requests == Closed(before, page[..k])
      {
        var q := page[k].place;
        db.requests := db.requests[q := db.requests[q].(status := RequestExpired)];
        ClosedStep(before, page, k);
      }
      assert page[..|page|] == page;
      closed := |page|;
    }

    method CreateRequest(user: User, departure: int, now: int) returns (outcome: Outcome)
      modifies db`requests
      ensures Result(db.Rows(), [], outcome) == Trips.CreateRequest(old(db.Rows()), user, departure, now)
      ensures old(db.Valid()) ==> db.Valid()
    {
      if db.Valid() {
        TripRuns.StepCoherent(db.Rows(), TripRuns.DoCreateRequest(user, departure, now));
      }
      if user.role != Passenger {
        return Raised(Forbidden);
      }
      var _ := ExpireStaleOpenRequests(now, EXPIRY_LIMIT);
      var existing := FindOpen(user.id);
      if existing.Some? {
        return Raised(BadRequest);
      }
      db.requests := db.requests + [NewRequest(user.id, departure, now)];
      return Done;
    }

    /** The passenger's newest open request. */
    method FindOpen(passenger: nat) returns (found: Option<nat>)
      ensures found.Some? <==> HasOpen(db.requests, passenger)
      ensures found.Some? ==> NewestOpen(db.requests, passenger, found.value)
    {
      found := None;
      for i := 0 to |db.requests|
        invariant found.Some? <==> HasOpen(db.requests[..i], passenger)
        invariant found.Some? ==> NewestOpen(db.requests[..i], passenger, found.value)
      {
        assert db.requests[..i + 1] == db.requests[..i] + [db.requests[i]];
        assert forall k | 0 <= k < i :: db.requests[..i + 1][k] == db.requests[..i][k];
        if IsOpen(db.requests[i], passenger)
          && (found.None? || db.requests[i].createdAt > db.requests[found.value].createdAt)
        {
          found := Some(i);
        }
        assert IsOpen(db.requests[i], passenger) ==> IsOpen(db.requests[..i + 1][i], passenger);
      }
      assert db.requests[..|db.requests|] == db.requests;
    }

    method CancelRequest(user: User, q: nat, now: int) returns (outcome: Outcome)
      modifies db`requests
      ensures Result(db.Rows(), [], outcome) == Trips.CancelRequest(old(db.Rows()), user, q, now)
      ensures old(db.Valid()) ==> db.Valid()
    {
      if db.Valid() {
        TripRuns.StepCoherent(db.Rows(), TripRuns.DoCancelRequest(user, q, now));
      }
      if user.role != Passenger {
        return Raised(Forbidden);
      }
      if q >= |db.requests| || db.requests[q].passenger != user.id {
        return Raised(NotFound);
      }
      var _ := ExpireStaleOpenRequests(now, EXPIRY_LIMIT);
      if db.requests[q].status != Open {
        return Raised(BadRequest);
      }
      db.requests := db.requests[q := db.requests[q].(status := RequestCancelled)];
      return Done;
    }

    method AcceptRequest(user: User, q: nat, present: bool, distance: real, now: int) returns (outcome: Outcome)
      modifies db`requests, db`rides, db`bookings
      ensures Result(db.Rows(), [], outcome) == Trips.AcceptRequest(old(db.Rows()), user, q, present, distance, now)
      ensures old(db.Valid()) ==> db.Valid()
    {
      if db.Valid() {
        TripRuns.StepCoherent(db.Rows(), TripRuns.DoAcceptRequest(user, q, present, distance, now));
      }
      if user.role != Driver {
        return Raised(Forbidden);
      }
      if !user.verified {
        return Raised(Forbidden);
      }
      var _ := ExpireStaleOpenRequests(now, EXPIRY_LIMIT);
      if !present {
        return Raised(NotFound);
      }
      if q >= |db.requests| {
        return Raised(NotFound);
      }
      if db.requests[q].status != Open {
        return Raised(BadRequest);
      }
      if distance > RADIUS_KM {
        return Raised(BadRequest);
      }
      Match(user.id, q, distance);
      return Done;
    }

    /** The ride starts with one seat, which the matched booking takes before the commit. */
    method Match(driver: nat, q: nat, distance: real)
      requires q < |db.requests|
      modifies db`requests, db`rides, db`bookings
      ensures db.Rows() == MatchRequest(old(db.Rows()), driver, q, distance)
    {
      var r, b := |db.rides|, |db.bookings|;
      db.rides := db.rides + [Ride(driver, 1, Full, false, db.requests[q].departure, FareCents(distance))];
      db.bookings := db.bookings + [NewBooking(r, db.requests[q].passenger, Accepted)];
      db.rides := db.rides[r := db.rides[r].(seats := 0)];
      db.requests := db.requests[q := db.requests[q].(status := Matched)];
      db.requests := db.requests[q := db.requests[q].(driver := Some(driver))];
      db.requests := db.requests[q := db.requests[q].(ride := Some(r))];
      db.requests := db.requests[q := db.requests[q].(booking := Some(b))];
    }

    method DeclineRequest(user: User, q: nat, present: bool) returns (outcome: Outcome)
      modifies db`dismissals
      ensures outcome == Done <==>
                && user.role == Driver && user.verified && present
                && q < |db.requests| && db.requests[q].status == Open
      ensures db.dismissals == if outcome == Done then old(db.dismissals) + {(user.id, q)} else old(db.dismissals)
      ensures old(db.Valid()) ==> db.Valid()
    {
      if user.role != Driver || !user.verified {
        return Raised(Forbidden);
      }
      if !present {
        return Raised(NotFound);
      }
      if q >= |db.requests| || db.requests[q].status != Open {
        return Raised(NotFound);
      }
      if (user.id, q) !in db.dismissals {
        db.dismissals := db.dismissals + {(user.id, q)};
      }
      return Done;
    }

    /** The requests this driver has declined. */
    function Dismissed(driver: nat): (declined: set<nat>)
      reads db
      ensures forall q :: q in declined <==> (driver, q) in db.dismissals
    {
      set d | d in db.dismissals && d.0 == driver :: d.1
    }

    /** `distance(i)` is the distance from the driver to the origin of request i. */
    method ListNearbyRequests(user: User, present: bool, distance: nat -> real, limit: nat, now: int)
      returns (outcome: Outcome, nearby: seq<(nat, int)>)
      modifies db`requests
      ensures user.role != Driver || !user.verified ==> outcome == Raised(Forbidden) && db.Rows() == old(db.Rows())
      ensures user.role == Driver && user.verified ==>
                && db.Rows() == Expire(old(db.Rows()), now, EXPIRY_LIMIT)
                && outcome == if present then Done else Raised(NotFound)
      ensures outcome == Done ==>
                var examined := Dispatching.Examined(db.requests, Dismissed(user.id), limit);
                AreItems(nearby, examined, Dispatching.Nearby(db.requests, Dismissed(user.id), distance, limit))
      ensures outcome == Done ==> |nearby| <= limit && forall item | item in nearby ::
                && item.0 < |db.requests| && db.requests[item.0].status == Open
                && (user.id, item.0) !in db.dismissals
                && distance(item.0) <= 25.0 && item.1 == Hundredths(distance(item.0))
      ensures old(db.Valid()) ==> db.Valid()
    {
      if user.role != Driver || !user.verified {
        return Raised(Forbidden), [];
      }
      var _ := ExpireStaleOpenRequests(now, EXPIRY_LIMIT);
      if !present {
        return Raised(NotFound), [];
      }
      Dispatching.NearbyIsTop(db.requests, Dismissed(user.id), distance, limit);
      nearby := NearbyItems(Dispatching.Examined(db.requests, Dismissed(user.id), limit), distance, limit);
      outcome := Done;
    }
  }

  /** The items are the requests of the listed entries, with their rounded distances. */
  ghost predicate AreItems(items: seq<(nat, int)>, examined: seq<Entry>, list: seq<Entry>) {
    && |items| == |list|
    && forall k | 0 <= k < |list| ::
         list[k].place < |examined| && items[k] == (examined[list[k].place].place, list[k].key)
  }

  method NearbyItems(examined: seq<Entry>, distance: nat -> real, limit: nat) returns (items: seq<(nat, int)>)
    ensures AreItems(items, examined, NearbyList(Dispatching.Distances(examined, distance), RADIUS_KM, limit))
  {
    var list := BuildNearby(Dispatching.Distances(examined, distance), RADIUS_KM, limit);
    items := [];
    for k := 0 to |list|
      invariant AreItems(items, examined, list[..k])
    {
      Dispatching.ListedItem(examined, distance, limit, list[k]);
      items := items + [(examined[list[k].place].place, list[k].key)];
    }
    assert list[..|list|] == list;
  }

  predicate IsOpen(q: RideRequest, passenger: nat) {
    q.passenger == passenger && q.status == Open
  }

  ghost predicate NewestOpen(requests: seq<RideRequest>, passenger: nat, i: nat) {
    && i < |requests| && IsOpen(requests[i], passenger)
    && forall k | 0 <= k < |requests| && IsOpen(requests[k], passenger) ::
         requests[k].createdAt <= requests[i].createdAt
  }

  lemma PageInTable(requests: seq<RideRequest>, now: int, limit: nat)
    ensures forall k | 0 <= k < |ExpirablePage(requests, now, limit)| ::
              ExpirablePage(requests, now, limit)[k].place < |requests|
  {
    var keys := StaleKeys(requests, now);
    QueryIs(keys, limit);
    MatchingAre(keys);
    forall k | 0 <= k < |ExpirablePage(requests, now, limit)|
      ensures ExpirablePage(requests, now, limit)[k].place < |requests|
    {
      assert ExpirablePage(requests, now, limit)[k] in Matching(keys);
    }
  }

  /** Closing one more request of the page. */
  lemma ClosedStep(requests: seq<RideRequest>, page: seq<Entry>, k: nat)
    requires k < |page| && page[k].place < |requests|
    ensures var q := page[k].place;
            var before := Closed(requests, page[..k]);
            Closed(requests, page[..k + 1]) == before[q := before[q].(status := RequestExpired)]
  {
  }
}
