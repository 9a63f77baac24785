/** What holds in every reachable state of the trips, and what is never undone over whole runs. */
module TripHistory {
  import opened Basics
  import opened Listing
  import opened Trips
  import opened TripRuns
  import P = Payments

  // ---------------------------------------------------------------- seats

  lemma {:induction false} CountSplits(bs: seq<Booking>, r: nat)
    ensures Count(bs, r, TAKEN) == Count(bs, r, {Accepted}) + Count(bs, r, {Completed})
  {
    if bs == [] {
    } else {
      CountSplits(bs[..|bs| - 1], r);
    }
  }

  /**
   * Seat conservation over every run: the free seats, the accepted and the completed bookings of a ride add up to
   * its capacity, at most so once it is cancelled. So no ride is overbooked and the counter is never negative.
   */
  lemma {:induction false} SeatConservation(run: seq<Action>, r: nat)
    requires LegalRun(run) && r < |After(START, run).db.rides|
    ensures var w := After(START, run);
            var ride := w.db.rides[r];
            var accepted, completed := Count(w.db.bookings, r, {Accepted}), Count(w.db.bookings, r, {Completed});
            && |w.capacity| == |w.db.rides| && ride.seats >= 0
            && ride.seats + accepted + completed <= w.capacity[r]
            && (ride.status != RideCancelled ==> ride.seats + accepted + completed == w.capacity[r])
  {
    Reachable(run);
    CountSplits(After(START, run).db.bookings, r);
  }

  /** Only an update of the ride itself changes its capacity. */
  lemma CapacityIsSetByUpdate(w: World, a: Action, r: nat)
    requires Inv(w) && Legal(a) && r < |w.db.rides|
    requires !(a.DoUpdateRide? && a.r == r)
    ensures r < |Next(w, a).capacity| && Next(w, a).capacity[r] == w.capacity[r]
  {
  }

  ghost predicate NeverUpdates(run: seq<Action>, r: nat) {
    forall i | 0 <= i < |run| :: !(run[i].DoUpdateRide? && run[i].r == r)
  }

  lemma {:induction false} CapacityStays(w: World, run: seq<Action>, r: nat)
    requires Inv(w) && LegalRun(run) && r < |w.db.rides| && NeverUpdates(run, r)
    ensures Inv(After(w, run)) && r < |After(w, run).capacity| && After(w, run).capacity[r] == w.capacity[r]
  {
    if run == [] {
    } else {
      CapacityStays(w, run[..|run| - 1], r);
      StepInv(After(w, run[..|run| - 1]), run[|run| - 1]);
      CapacityIsSetByUpdate(After(w, run[..|run| - 1]), run[|run| - 1], r);
    }
  }

  /**
   * Between two updates of a ride no run of any other operations changes the sum of its free seats and its accepted and
   * completed bookings; cancelling the ride is the only way to lower it.
   */
  lemma {:induction false} SeatsBetweenUpdates(w: World, run: seq<Action>, r: nat)
    requires Inv(w) && LegalRun(run) && r < |w.db.rides| && NeverUpdates(run, r)
    requires w.db.rides[r].status != RideCancelled
    ensures var later := After(w, run);
            && r < |later.db.rides|
            && later.db.rides[r].seats + Taken(later.db, r) <= w.db.rides[r].seats + Taken(w.db, r)
            && (later.db.rides[r].status != RideCancelled ==>
                  later.db.rides[r].seats + Taken(later.db, r) == w.db.rides[r].seats + Taken(w.db, r))
  {
    CapacityStays(w, run, r);
  }

  /** The three-part filter of the ride search selects exactly the scheduled rides. */
  lemma SearchFilter(run: seq<Action>, r: nat)
    requires LegalRun(run) && r < |After(START, run).db.rides|
    ensures var ride := After(START, run).db.rides[r];
            && (ride.active <==> ride.status == Scheduled)
            && (ride.status == Scheduled && ride.active && ride.seats > 0 <==> ride.status == Scheduled)
            && (ride.status == Full ==> ride.seats == 0)
  {
    Reachable(run);
  }

  /**
   * A booking cancel that gives a seat back, which sets the ride to scheduled without looking at it, only ever
   * happens on a ride that is scheduled or full; and no booking of a cancelled ride can be accepted.
   */
  lemma {:induction false} ReopeningIsSafe(run: seq<Action>, b: nat)
    requires LegalRun(run) && b < |After(START, run).db.bookings|
    ensures var db := After(START, run).db;
            && db.bookings[b].ride < |db.rides|
            && (db.bookings[b].status == Accepted ==> db.rides[db.bookings[b].ride].status in {Scheduled, Full})
            && (db.rides[db.bookings[b].ride].status == RideCancelled ==> db.bookings[b].status !in {Pending, Accepted})
  {
    Reachable(run);
  }

  // ---------------------------------------------------------------- one status change

  /** Who may move a booking from which status to which: the driver, who is asked first, and the passenger. */
  predicate Permitted(db: Db, user: nat, b: nat, status: BookingStatus) {
    && Known(db, b)
    && var booking := db.bookings[b];
       var ride, move := db.rides[booking.ride], (booking.status, status);
       if ride.driver == user then
         && move in {(Pending, Accepted), (Pending, Rejected), (Pending, CancelledByDriver),
                     (Accepted, CancelledByDriver), (Accepted, Completed)}
         && (status == Accepted ==> ride.seats >= 1) && (status == Completed ==> booking.boardedAt.Some?)
       else
         booking.passenger == user && move in {(Pending, CancelledByPassenger), (Accepted, CancelledByPassenger)}
  }

  /** Only booking b's status and its ride's seats and status differ, and each seat is free or taken by a booking. */
  ghost predicate OnlyMoved(before: Db, after: Db, b: nat, status: BookingStatus)
    requires Known(before, b)
  {
    var r, was := before.bookings[b].ride, before.bookings[b];
    && after.bookings == before.bookings[b := was.(status := status)] && after.requests == before.requests
    && |after.rides| == |before.rides|
    && after.rides == before.rides[r := after.rides[r]]
    && after.rides[r].seats + Weight(after.bookings[b], r, TAKEN) == before.rides[r].seats + Weight(was, r, TAKEN)
    && (Weight(after.bookings[b], r, TAKEN) == Weight(was, r, TAKEN) ==> after.rides == before.rides)
  }

  /** A status change succeeds exactly when it is permitted, and then moves that booking and its seat only. */
  lemma StatusChange(db: Db, user: nat, b: nat, status: BookingStatus, v: P.Provider)
    ensures var result := UpdateStatus(db, user, b, status, v);
            && (result.outcome == Done <==> Permitted(db, user, b, status))
            && (if result.outcome == Done then OnlyMoved(db, result.db, b, status)
                else result.db == db && result.jobs == [])
  {
  }

  /**
   * Cancelling a booking undoes its acceptance on the rides exactly when the ride was scheduled; a completed one is
   * reopened.
   */
  lemma CancelUndoesAccept(db: Db, driver: nat, who: nat, b: nat, target: BookingStatus, v: P.Provider, w: P.Provider)
    requires Coherent(db) && target in {CancelledByDriver, CancelledByPassenger}
    requires UpdateStatus(db, driver, b, Accepted, v).outcome == Done
    requires UpdateStatus(UpdateStatus(db, driver, b, Accepted, v).db, who, b, target, w).outcome == Done
    ensures var after := UpdateStatus(UpdateStatus(db, driver, b, Accepted, v).db, who, b, target, w).db;
            after.rides == db.rides <==> db.rides[db.bookings[b].ride].status == Scheduled
  {
  }

  // ---------------------------------------------------------------- what never changes back

  predicate Settled(status: BookingStatus) {
    status !in {Pending, Accepted}
  }

  /** Rows only get added, keep who they belong to, and never leave a final state. */
  ghost predicate Evolves(before: Db, after: Db) {
    && |before.rides| <= |after.rides| && |before.bookings| <= |after.bookings| && |before.requests| <= |after.requests|
    && (forall r | 0 <= r < |before.rides| :: RideEvolves(before.rides[r], after.rides[r]))
    && (forall b | 0 <= b < |before.bookings| :: BookingEvolves(before.bookings[b], after.bookings[b]))
    && (forall q | 0 <= q < |before.requests| :: RequestEvolves(before.requests[q], after.requests[q]))
  }

  ghost predicate RideEvolves(before: Ride, after: Ride) {
    && after.driver == before.driver
    && (before.status == RideCancelled ==> after.status == RideCancelled)
  }

  ghost predicate BookingEvolves(before: Booking, after: Booking) {
    && after.ride == before.ride && after.passenger == before.passenger
    && (before.boardedAt.Some? ==> after.boardedAt == before.boardedAt)
    && (Settled(before.status) ==> after.status == before.status)
    && (before.status == Accepted ==> after.status != Pending)
  }

  ghost predicate RequestEvolves(before: RideRequest, after: RideRequest) {
    && after.passenger == before.passenger && after.departure == before.departure
    && (before.status != Open ==> after == before)
  }

  /** Rewriting rides and bookings in place, row by row in allowed ways, evolves the rows. */
  lemma RowsEvolve(before: Db, after: Db)
    requires |after.rides| == |before.rides| && |after.bookings| == |before.bookings|
    requires after.requests == before.requests
    requires forall r | 0 <= r < |before.rides| :: RideEvolves(before.rides[r], after.rides[r])
    requires forall b | 0 <= b < |before.bookings| :: BookingEvolves(before.bookings[b], after.bookings[b])
    ensures Evolves(before, after)
  {
  }

  lemma CreateEvolves(db: Db, u: User, r: nat, seats: int, departure: int, price: int)
    ensures Evolves(db, CreateRide(db, u, seats, departure, price).db)
    ensures Evolves(db, CreateBooking(db, u, r).db)
  {
  }

  lemma UpdateRideEvolves(db: Db, u: User, r: nat, seats: int, departure: int, price: int)
    ensures Evolves(db, UpdateRide(db, u, r, seats, departure, price).db)
  {
    RowsEvolve(db, UpdateRide(db, u, r, seats, departure, price).db);
  }

  lemma CancelRideEvolves(db: Db, u: User, r: nat)
    ensures Evolves(db, CancelRide(db, u, r).db)
  {
    RowsEvolve(db, CancelRide(db, u, r).db);
  }

  lemma CompleteRideEvolves(db: Db, u: User, r: nat, ask: nat -> P.Provider)
    ensures Evolves(db, CompleteRide(db, u, r, ask).db)
  {
    RowsEvolve(db, CompleteRide(db, u, r, ask).db);
  }

  /** A seat is only taken on, or given back to, a ride that is not cancelled. */
  lemma UpdateStatusEvolves(db: Db, u: nat, b: nat, status: BookingStatus, v: P.Provider)
    requires Coherent(db)
    ensures Evolves(db, UpdateStatus(db, u, b, status, v).db)
  {
    RowsEvolve(db, UpdateStatus(db, u, b, status, v).db);
  }

  lemma IssueOtpEvolves(db: Db, u: nat, b: nat, otp: string, now: int, life: int)
    ensures Evolves(db, IssueOtp(db, u, b, otp, now, life).db)
  {
    RowsEvolve(db, IssueOtp(db, u, b, otp, now, life).db);
  }

  lemma VerifyOtpEvolves(db: Db, u: nat, b: nat, otp: string, now: int)
    ensures Evolves(db, VerifyOtp(db, u, b, otp, now).db)
  {
    RowsEvolve(db, VerifyOtp(db, u, b, otp, now).db);
  }

  lemma CreateRequestEvolves(db: Db, u: User, departure: int, now: int)
    ensures Evolves(db, CreateRequest(db, u, departure, now).db)
  {
    ExpireEvolves(db, now, EXPIRY_LIMIT);
  }

  lemma CancelRequestEvolves(db: Db, u: User, q: nat, now: int)
    ensures Evolves(db, CancelRequest(db, u, q, now).db)
  {
    ExpireEvolves(db, now, EXPIRY_LIMIT);
  }

  lemma AcceptRequestEvolves(db: Db, u: User, q: nat, present: bool, distance: real, now: int)
    ensures Evolves(db, AcceptRequest(db, u, q, present, distance, now).db)
  {
    ExpireEvolves(db, now, EXPIRY_LIMIT);
  }

  lemma RideStepEvolves(w: World, a: Action)
    requires a.DoCreateRide? || a.DoUpdateRide? || a.DoCancelRide? || a.DoCompleteRide? || a.DoCreateBooking?
    ensures Evolves(w.db, Next(w, a).db)
  {
    match a
    case DoCreateRide(u, seats, departure, price) => CreateEvolves(w.db, u, 0, seats, departure, price);
    case DoCreateBooking(u, r) => CreateEvolves(w.db, u, r, 0, 0, 0);
    case DoUpdateRide(u, r, seats, departure, price) => UpdateRideEvolves(w.db, u, r, seats, departure, price);
    case DoCancelRide(u, r) => CancelRideEvolves(w.db, u, r);
    case DoCompleteRide(u, r, ask) => CompleteRideEvolves(w.db, u, r, ask);
  }

  lemma {:induction false} BookingStepEvolves(w: World, a: Action)
    requires Inv(w) && (a.DoUpdateStatus? || a.DoIssueOtp? || a.DoVerifyOtp?)
    ensures Evolves(w.db, Next(w, a).db)
  {
    match a
    case DoUpdateStatus(u, b, status, v) => UpdateStatusEvolves(w.db, u, b, status, v);
    case DoIssueOtp(u, b, otp, now, life) => IssueOtpEvolves(w.db, u, b, otp, now, life);
    case DoVerifyOtp(u, b, otp, now) => VerifyOtpEvolves(w.db, u, b, otp, now);
  }

  lemma RequestStepEvolves(w: World, a: Action)
    requires a.DoPayment? || a.DoCreateRequest? || a.DoCancelRequest? || a.DoAcceptRequest? || a.DoExpire?
    ensures Evolves(w.db, Next(w, a).db)
  {
    match a
    case DoPayment(_) => RowsEvolve(w.db, Perform(w.db, a).db);
    case DoCreateRequest(u, departure, now) => CreateRequestEvolves(w.db, u, departure, now);
    case DoCancelRequest(u, q, now) => CancelRequestEvolves(w.db, u, q, now);
    case DoAcceptRequest(u, q, present, distance, now) => AcceptRequestEvolves(w.db, u, q, present, distance, now);
    case DoExpire(now, limit) => ExpireEvolves(w.db, now, limit);
  }

  /** No operation undoes a final state. */
  lemma {:induction false} StepEvolves(w: World, a: Action)
    requires Inv(w)
    ensures Evolves(w.db, Next(w, a).db)
  {
    if a.DoCreateRide? || a.DoUpdateRide? || a.DoCancelRide? || a.DoCompleteRide? || a.DoCreateBooking? {
      RideStepEvolves(w, a);
    } else if a.DoUpdateStatus? || a.DoIssueOtp? || a.DoVerifyOtp? {
      BookingStepEvolves(w, a);
    } else {
      RequestStepEvolves(w, a);
    }
  }

  /** Only open requests whose departure is past are on the expiry page. */
  lemma PageIsStale(requests: seq<RideRequest>, now: int, limit: nat, q: nat)
    requires q < |requests| && OnPage(ExpirablePage(requests, now, limit), q)
    ensures requests[q].status == Open && requests[q].departure < now
  {
    var keys := StaleKeys(requests, now);
    QueryIs(keys, limit);
    MatchingAre(keys);
    var k :| 0 <= k < |ExpirablePage(requests, now, limit)| && ExpirablePage(requests, now, limit)[k].place == q;
    assert ExpirablePage(requests, now, limit)[k] in Matching(keys);
  }

  lemma ExpireEvolves(db: Db, now: int, limit: nat)
    ensures forall q | 0 <= q < |db.requests| :: RequestEvolves(db.requests[q], Expire(db, now, limit).requests[q])
  {
    forall q | 0 <= q < |db.requests| ensures RequestEvolves(db.requests[q], Expire(db, now, limit).requests[q]) {
      if OnPage(ExpirablePage(db.requests, now, limit), q) {
        PageIsStale(db.requests, now, limit, q);
      }
    }
  }

  lemma EvolvesTransitively(a: Db, b: Db, c: Db)
    requires Evolves(a, b) && Evolves(b, c)
    ensures Evolves(a, c)
  {
  }

  /**
   * Over any run: a cancelled ride stays cancelled; a rejected, cancelled or completed booking keeps its status; a
   * boarding time never changes; and a request that left `open` never changes again.
   */
  lemma {:induction false} NothingIsUndone(w: World, run: seq<Action>)
    requires Inv(w) && LegalRun(run)
    ensures Inv(After(w, run)) && Evolves(w.db, After(w, run).db)
  {
    if run == [] {
    } else {
      var front := run[..|run| - 1];
      NothingIsUndone(w, front);
      StepInv(After(w, front), run[|run| - 1]);
      StepEvolves(After(w, front), run[|run| - 1]);
      EvolvesTransitively(w.db, After(w, front).db, After(w, run).db);
    }
  }

  /** The acceptance of a pending booking of ride r by its driver, with a seat left. */
  predicate Reopens(db: Db, u: nat, b: nat, status: BookingStatus, r: nat) {
    && Known(db, b) && db.bookings[b].ride == r && db.rides[r].driver == u
    && status == Accepted && db.bookings[b].status == Pending && db.rides[r].seats >= 1
  }

  lemma StatusLeavesCompleted(db: Db, u: nat, b: nat, status: BookingStatus, v: P.Provider, r: nat)
    requires Coherent(db) && r < |db.rides| && db.rides[r].status == RideCompleted
    ensures |UpdateStatus(db, u, b, status, v).db.rides| == |db.rides|
    ensures UpdateStatus(db, u, b, status, v).db.rides[r].status != RideCompleted <==> Reopens(db, u, b, status, r)
  {
  }

  lemma OthersKeepCompleted(w: World, a: Action, r: nat)
    requires Inv(w) && r < |w.db.rides| && w.db.rides[r].status == RideCompleted && !a.DoUpdateStatus?
    ensures r < |Next(w, a).db.rides| && Next(w, a).db.rides[r] == w.db.rides[r]
  {
  }

  /** A completed ride is left in exactly one way: its driver accepts a booking of it that was still pending. */
  lemma CompletedIsLeftOnlyByAccept(w: World, a: Action, r: nat)
    requires Inv(w) && r < |w.db.rides| && w.db.rides[r].status == RideCompleted
    ensures r < |Next(w, a).db.rides|
    ensures Next(w, a).db.rides[r].status != RideCompleted
            <==> a.DoUpdateStatus? && Reopens(w.db, a.userId, a.b, a.status, r)
  {
    if a.DoUpdateStatus? {
      StatusLeavesCompleted(w.db, a.userId, a.b, a.status, a.provider, r);
    } else {
      OthersKeepCompleted(w, a, r);
    }
  }

  const DRIVER := User(1, Driver, true)
  const PASSENGER := User(2, Passenger, true)

  /** A ride of two seats with one pending booking is completed. */
  function CompletedEarly(ask: nat -> P.Provider): seq<Action> {
    [DoCreateRide(DRIVER, 2, 0, 0)] + [DoCreateBooking(PASSENGER, 0)] + [DoCompleteRide(DRIVER, 0, ask)]
  }

  lemma CompletedEarlyRows(ask: nat -> P.Provider)
    ensures var db := After(START, CompletedEarly(ask)).db;
            && db.rides == [Ride(1, 2, RideCompleted, false, 0, 0)]
            && db.bookings == [NewBooking(0, 2, Pending)]
            && db.ledger == EMPTY.ledger
  {
    var create, book := DoCreateRide(DRIVER, 2, 0, 0), DoCreateBooking(PASSENGER, 0);
    var complete := DoCompleteRide(DRIVER, 0, ask);
    AfterOneMore(START, [], create);
    AfterOneMore(START, [create], book);
    AfterOneMore(START, [create] + [book], complete);
    assert [] + [create] == [create];
    var db := After(START, [create] + [book]).db;
    assert db.bookings == [NewBooking(0, 2, Pending)];
    assert CaptureJobs(db, 0, ask, 1) == CaptureJobs(db, 0, ask, 0);
    assert Captured(db, 0, ask, 1) == Captured(db, 0, ask, 0) + [];
    assert Moved(db.bookings, 0, {Accepted}, Completed) == db.bookings;
  }

  /** Such a state is reachable: the driver then accepts the booking, which puts the completed ride up again. */
  lemma CompletedCanBeLeft(ask: nat -> P.Provider, v: P.Provider)
    ensures var run := CompletedEarly(ask) + [DoUpdateStatus(DRIVER.id, 0, Accepted, v)];
            && LegalRun(run)
            && After(START, CompletedEarly(ask)).db.rides == [Ride(1, 2, RideCompleted, false, 0, 0)]
            && After(START, run).db.rides == [Ride(1, 1, Scheduled, true, 0, 0)]
            && After(START, run).db.bookings == [NewBooking(0, 2, Accepted)]
  {
    CompletedEarlyRows(ask);
    AfterOneMore(START, CompletedEarly(ask), DoUpdateStatus(DRIVER.id, 0, Accepted, v));
  }
}
