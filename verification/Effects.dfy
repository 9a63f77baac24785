/**
 * Who may do what to rides, bookings and requests, and exactly which fields of which rows it changes: the operations of
 * app/services/ride.py, app/services/booking.py and app/services/dispatch.py, told by their outcome.
 */
module Effects {
  import opened Basics
  import opened Trips
  import opened TripRuns
  import Money
  import PaymentOutcomes
  import TripHistory
  import P = Payments

  // ---------------------------------------------------------------- rides

  /** Only verified drivers publish rides; the new ride is theirs, open, with what they asked for. */
  lemma CreateRideAdds(db: Db, u: User, seats: int, departure: int, priceCents: int)
    ensures var result := CreateRide(db, u, seats, departure, priceCents);
            && (result.outcome == Done <==> u.role == Driver && u.verified)
            && (result.outcome != Done ==> result == Result(db, [], Raised(Forbidden)))
            && (result.outcome == Done ==>
                  && result.jobs == []
                  && result.db == db.(rides := result.db.rides) && |result.db.rides| == |db.rides| + 1
                  && result.db.rides[..|db.rides|] == db.rides
                  && var ride := result.db.rides[|db.rides|];
                     && ride.driver == u.id && ride.seats == seats && ride.departure == departure
                     && ride.priceCents == priceCents && ride.status == Scheduled && ride.active)
  {
  }

  /** The ride exists and the user is its driver. */
  predicate Drives(db: Db, u: User, r: nat) {
    u.role == Driver && r < |db.rides| && db.rides[r].driver == u.id
  }

  /** What keeps a driver from changing a ride, in the order it is told. */
  ghost predicate RefusedToDriver(db: Db, u: User, r: nat, result: Result) {
    && result.db == db && result.jobs == []
    && result.outcome == Raised(if u.role == Driver && r >= |db.rides| then NotFound
                                else if !Drives(db, u, r) then Forbidden else BadRequest)
  }

  lemma OpenIff(ride: Ride)
    ensures Finished(ride) <==> ride.status !in {Scheduled, Full}
  {
    match ride.status
    case Scheduled =>
    case Full =>
    case RideCompleted =>
    case RideCancelled =>
  }

  /** Only its driver updates a ride that is not over, and not to fewer seats than passengers were accepted. */
  lemma UpdateRideChanges(db: Db, u: User, r: nat, seats: int, departure: int, priceCents: int)
    ensures var result := UpdateRide(db, u, r, seats, departure, priceCents);
            && (result.outcome == Done <==>
                  && Drives(db, u, r) && db.rides[r].status in {Scheduled, Full}
                  && seats >= Count(db.bookings, r, {Accepted}))
            && (result.outcome != Done ==> RefusedToDriver(db, u, r, result))
            && (result.outcome == Done ==>
                  && result.jobs == []
                  && result.db == db.(rides := result.db.rides) && |result.db.rides| == |db.rides|
                  && result.db.rides == db.rides[r := result.db.rides[r]]
                  && var ride := result.db.rides[r];
                     && ride.driver == db.rides[r].driver && ride.seats == seats && ride.departure == departure
                     && ride.priceCents == priceCents && (ride.status == Full <==> seats == 0)
                     && ride.status in {Scheduled, Full} && (ride.active <==> ride.status == Scheduled))
  {
    if r < |db.rides| {
      OpenIff(db.rides[r]);
    }
  }

  /** Only its driver cancels a ride that is not over; its open bookings go with it, and nothing else changes. */
  lemma CancelRideChanges(db: Db, u: User, r: nat)
    ensures var result := CancelRide(db, u, r);
            && (result.outcome == Done <==> Drives(db, u, r) && db.rides[r].status in {Scheduled, Full})
            && (result.outcome != Done ==> RefusedToDriver(db, u, r, result))
            && (result.outcome == Done ==>
                  && result.jobs == []
                  && result.db == db.(rides := result.db.rides, bookings := result.db.bookings)
                  && |result.db.rides| == |db.rides| && |result.db.bookings| == |db.bookings|
                  && result.db.rides == db.rides[r := db.rides[r].(status := RideCancelled, active := false)]
                  && forall i | 0 <= i < |db.bookings| ::
                       if db.bookings[i].ride == r && db.bookings[i].status in {Pending, Accepted} then
                         result.db.bookings[i] == db.bookings[i].(status := CancelledByDriver)
                       else
                         result.db.bookings[i] == db.bookings[i])
  {
    if r < |db.rides| {
      OpenIff(db.rides[r]);
    }
  }

  /** Why a completion is refused: a driver's reasons, a ride that is over or not boarded, or an uncaptured payment. */
  lemma CompleteRideRefusals(db: Db, u: User, r: nat, ask: nat -> P.Provider)
    requires CompleteRide(db, u, r, ask).outcome != Done
    ensures var result := CompleteRide(db, u, r, ask);
            if Drives(db, u, r) && db.rides[r].status in {Scheduled, Full} && AllBoarded(db, r)
            then result.outcome == Raised(Conflict) && result.db == db
            else RefusedToDriver(db, u, r, result)
  {
    if r < |db.rides| {
      OpenIff(db.rides[r]);
    }
  }

  /** The completion of the ride gets to booking i and asks to capture its authorized payment. */
  ghost predicate GetsTo(db: Db, r: nat, ask: nat -> P.Provider, i: nat) {
    && ToComplete(db, r, i) && i in db.ledger.payments && db.ledger.payments[i].status == P.Authorized
    && forall k: nat | k < i && ToComplete(db, r, k) :: Captures(db, k, ask)
  }

  /** What a completion queues: the retries of the captures it asked for that were not granted, up to where it stops. */
  lemma {:induction false} CompletionQueues(db: Db, r: nat, ask: nat -> P.Provider, n: nat, i: nat)
    ensures P.CaptureRetry(i) in CaptureJobs(db, r, ask, n).0
            <==> i < n && GetsTo(db, r, ask, i) && !P.Worked(db.ledger.payments[i], ask(i).lookup, ask(i).capture)
    ensures CaptureJobs(db, r, ask, n).1 <==> forall k: nat | k < n && ToComplete(db, r, k) :: Captures(db, k, ask)
  {
    if n == 0 {
    } else {
      CompletionQueues(db, r, ask, n - 1, i);
    }
  }

  /** It queues the reconciliations of those whose missing reference could not be looked up, and no refund retry. */
  lemma {:induction false} CompletionReconciles(db: Db, r: nat, ask: nat -> P.Provider, n: nat, i: nat)
    ensures P.Reconciliation(i) in CaptureJobs(db, r, ask, n).0
            <==> && i < n && GetsTo(db, r, ask, i)
                 && db.ledger.payments[i].reference in {None, Some("")} && ask(i).lookup.Down?
    ensures P.RefundRetry(i) !in CaptureJobs(db, r, ask, n).0
  {
    if n == 0 {
    } else {
      CompletionReconciles(db, r, ask, n - 1, i);
      CompletionQueues(db, r, ask, n - 1, i);
      if n - 1 in db.ledger.payments {
        PaymentOutcomes.UsableIff(db.ledger.payments[n - 1].reference);
      }
    }
  }

  // ---------------------------------------------------------------- bookings

  /** A passenger books an open ride of another driver with a seat left, once; the booking waits for the driver. */
  lemma CreateBookingAdds(db: Db, u: User, r: nat)
    ensures var result := CreateBooking(db, u, r);
            && (result.outcome == Done <==>
                  && u.role == Passenger && r < |db.rides| && db.rides[r].status == Scheduled && db.rides[r].active
                  && db.rides[r].driver != u.id && db.rides[r].seats >= 1
                  && forall i | 0 <= i < |db.bookings| :: db.bookings[i].ride != r || db.bookings[i].passenger != u.id)
            && (result.outcome != Done ==>
                  && result.db == db && result.jobs == []
                  && result.outcome == Raised(
                       if u.role != Passenger then Forbidden
                       else if r >= |db.rides| || db.rides[r].status != Scheduled || !db.rides[r].active then NotFound
                       else BadRequest))
            && (result.outcome == Done ==>
                  && result.jobs == []
                  && result.db == db.(bookings := result.db.bookings)
                  && |result.db.bookings| == |db.bookings| + 1 && result.db.bookings[..|db.bookings|] == db.bookings
                  && IsNewBooking(result.db.bookings[|db.bookings|], r, u.id, Pending))
  {
  }

  ghost predicate IsNewBooking(b: Booking, r: nat, passenger: nat, status: BookingStatus) {
    && b.ride == r && b.passenger == passenger && b.status == status
    && b.otpHash == None && b.otpExpiresAt == None && b.boardedAt == None
  }

  /** Why a status change is refused: unknown booking, a stranger or an unsuitable passenger's request, or the move. */
  lemma StatusRefusals(db: Db, user: nat, b: nat, status: BookingStatus, v: P.Provider)
    requires UpdateStatus(db, user, b, status, v).outcome != Done
    ensures UpdateStatus(db, user, b, status, v).outcome == Raised(
              if !Known(db, b) then NotFound
              else if db.rides[db.bookings[b].ride].driver == user then BadRequest
              else if db.bookings[b].passenger == user && status == CancelledByPassenger then BadRequest
              else Forbidden)
  {
  }

  /** What a status change does to the ride, besides the seat: full without seats after an acceptance, else open. */
  lemma StatusChangesRide(db: Db, user: nat, b: nat, status: BookingStatus, v: P.Provider)
    requires UpdateStatus(db, user, b, status, v).outcome == Done
    ensures Known(db, b) && db.bookings[b].ride < |UpdateStatus(db, user, b, status, v).db.rides|
    ensures var r := db.bookings[b].ride;
            var before, after := db.rides[r], UpdateStatus(db, user, b, status, v).db.rides[r];
            && after.driver == before.driver && after.departure == before.departure
            && after.priceCents == before.priceCents
            && (status == Accepted ==>
                  && after.seats == before.seats - 1
                  && after.status == (if before.seats == 1 then Full else Scheduled)
                  && (after.active <==> after.status == Scheduled))
            && (status in {CancelledByDriver, CancelledByPassenger} && db.bookings[b].status == Accepted ==>
                  after.seats == before.seats + 1 && after.status == Scheduled && after.active)
            && (status in {Rejected, Completed} || (db.bookings[b].status == Pending && status != Accepted) ==>
                  after == before)
  {
  }

  /** The payment operation of a status change: a capture on acceptance, a refund on cancellation, otherwise none. */
  lemma StatusChangesPayment(db: Db, user: nat, b: nat, status: BookingStatus, v: P.Provider)
    requires UpdateStatus(db, user, b, status, v).outcome == Done
    ensures var result := UpdateStatus(db, user, b, status, v);
            && (status == Accepted ==>
                  && result.db.ledger == P.Step(db.ledger, P.Capture(b, v))
                  && result.jobs == P.JobsOf(db.ledger, P.Capture(b, v)))
            && (status in {CancelledByDriver, CancelledByPassenger} ==>
                  && result.db.ledger == P.Step(db.ledger, P.Refund(b, v))
                  && result.jobs == P.JobsOf(db.ledger, P.Refund(b, v)))
            && (status in {Rejected, Completed} ==> result.db.ledger == db.ledger && result.jobs == [])
  {
  }

  /** Only the passenger of an accepted booking not boarded yet gets a code; it is stored with its expiry. */
  lemma IssueOtpStores(db: Db, user: nat, b: nat, otp: string, now: int, life: int)
    ensures var result := IssueOtp(db, user, b, otp, now, life);
            && (result.outcome == Done <==>
                  && b < |db.bookings| && db.bookings[b].passenger == user
                  && db.bookings[b].status == Accepted && db.bookings[b].boardedAt == None)
            && (result.outcome != Done ==>
                  && result.db == db && result.jobs == []
                  && result.outcome == Raised(if b >= |db.bookings| then NotFound
                                              else if db.bookings[b].passenger != user then Forbidden else BadRequest))
            && (result.outcome == Done ==>
                  && result.jobs == []
                  && result.db == db.(bookings := db.bookings[b := db.bookings[b].(otpHash := Some((b, otp)),
                                                                                  otpExpiresAt := Some(now + life))]))
  {
  }

  /** Only the ride's driver boards, an accepted booking, with the stored code before it expires; and only once. */
  lemma VerifyOtpBoards(db: Db, user: nat, b: nat, otp: string, now: int)
    ensures var result := VerifyOtp(db, user, b, otp, now);
            && (result.outcome == Done <==>
                  && Known(db, b) && db.rides[db.bookings[b].ride].driver == user && db.bookings[b].status == Accepted
                  && (db.bookings[b].boardedAt.Some?
                      || (&& db.bookings[b].otpHash == Some((b, otp))
                          && db.bookings[b].otpExpiresAt.Some? && now < db.bookings[b].otpExpiresAt.value)))
            && (result.outcome != Done ==>
                  && result.db == db && result.jobs == []
                  && result.outcome == Raised(if !Known(db, b) then NotFound
                                              else if db.rides[db.bookings[b].ride].driver != user then Forbidden
                                              else BadRequest))
            && (result.outcome == Done ==>
                  && result.jobs == [] && result.db == db.(bookings := result.db.bookings)
                  && result.db.bookings ==
                     if db.bookings[b].boardedAt.Some? then db.bookings
                     else
                       db.bookings[b := db.bookings[b].(boardedAt := Some(now), otpHash := None, otpExpiresAt := None)])
  {
  }

  // ---------------------------------------------------------------- at most one booking of a ride per passenger

  ghost predicate OneBookingEach(bookings: seq<Booking>) {
    forall i, j | 0 <= i < j < |bookings| ::
      bookings[i].ride != bookings[j].ride || bookings[i].passenger != bookings[j].passenger
  }

  lemma StepOneBookingEach(w: World, a: Action)
    requires Inv(w) && OneBookingEach(w.db.bookings)
    ensures OneBookingEach(Next(w, a).db.bookings)
  {
    TripHistory.StepEvolves(w, a);
    var before, after := w.db.bookings, Next(w, a).db.bookings;
    if |after| > |before| {
      NewBookingIsFirst(w, a);
    }
    OneBookingStays(before, after);
  }

  /** Bookings keep their ride and passenger, so that only a new one could repeat them. */
  lemma OneBookingStays(before: seq<Booking>, after: seq<Booking>)
    requires |before| <= |after| <= |before| + 1
    requires forall i | 0 <= i < |before| :: TripHistory.BookingEvolves(before[i], after[i])
    requires OneBookingEach(before)
    requires |after| > |before| ==>
               forall i | 0 <= i < |before| ::
                 before[i].ride != after[|before|].ride || before[i].passenger != after[|before|].passenger
    ensures OneBookingEach(after)
  {
    forall i, j | 0 <= i < j < |after|
      ensures after[i].ride != after[j].ride || after[i].passenger != after[j].passenger
    {
      assert TripHistory.BookingEvolves(before[i], after[i]);
      if j < |before| {
        assert TripHistory.BookingEvolves(before[j], after[j]);
      }
    }
  }

  /** A booking is added one at a time, for a passenger who has none on its ride. */
  lemma NewBookingIsFirst(w: World, a: Action)
    requires Inv(w) && |Next(w, a).db.bookings| > |w.db.bookings|
    ensures |Next(w, a).db.bookings| == |w.db.bookings| + 1
    ensures var b := Next(w, a).db.bookings[|w.db.bookings|];
            forall i | 0 <= i < |w.db.bookings| ::
              w.db.bookings[i].ride != b.ride || w.db.bookings[i].passenger != b.passenger
  {
    if a.DoCreateBooking? {
      CreateBookingAdds(w.db, a.user, a.r);
    } else if a.DoAcceptRequest? {
      AcceptRequestIff(w.db, a.user, a.q, a.present, a.distance, a.now);
    } else {
      OthersAddNoBooking(w.db, a);
    }
  }

  lemma OthersAddNoBooking(db: Db, a: Action)
    requires !a.DoCreateBooking? && !a.DoAcceptRequest?
    ensures |Perform(db, a).db.bookings| == |db.bookings|
  {
  }

  /** In every reachable state a passenger has at most one booking on a ride. */
  lemma {:induction false} OneBookingReachable(run: seq<Action>)
    requires LegalRun(run)
    ensures OneBookingEach(After(START, run).db.bookings)
  {
    if run == [] {
    } else {
      OneBookingReachable(run[..|run| - 1]);
      Reachable(run[..|run| - 1]);
      StepOneBookingEach(After(START, run[..|run| - 1]), run[|run| - 1]);
    }
  }

  // ---------------------------------------------------------------- requests

  /** After the expiry pass a passenger without an open request gets one, with the departure and time of asking. */
  lemma CreateRequestAdds(db: Db, u: User, departure: int, now: int)
    ensures var result, swept := CreateRequest(db, u, departure, now), Expire(db, now, EXPIRY_LIMIT);
            && result.jobs == []
            && (result.outcome == Done <==>
                  && u.role == Passenger
                  && forall q | 0 <= q < |swept.requests| ::
                       swept.requests[q].passenger != u.id || swept.requests[q].status != Open)
            && (result.outcome != Done ==>
                  if u.role != Passenger then result.outcome == Raised(Forbidden) && result.db == db
                  else result.outcome == Raised(BadRequest) && result.db == swept)
            && (result.outcome == Done ==>
                  && result.db == swept.(requests := result.db.requests)
                  && |result.db.requests| == |db.requests| + 1 && result.db.requests[..|db.requests|] == swept.requests
                  && var q := result.db.requests[|db.requests|];
                     && q.passenger == u.id && q.departure == departure && q.createdAt == now && q.status == Open
                     && q.driver == None && q.ride == None && q.booking == None)
  {
  }

  /** A passenger cancels an own request that the expiry pass left open. */
  lemma CancelRequestChanges(db: Db, u: User, q: nat, now: int)
    ensures var result, swept := CancelRequest(db, u, q, now), Expire(db, now, EXPIRY_LIMIT);
            var own := u.role == Passenger && q < |db.requests| && db.requests[q].passenger == u.id;
            && result.jobs == []
            && (result.outcome == Done <==> own && swept.requests[q].status == Open)
            && (result.outcome != Done ==>
                  if !own then
                    result.outcome == Raised(if u.role != Passenger then Forbidden else NotFound) && result.db == db
                  else
                    result.outcome == Raised(BadRequest) && result.db == swept)
            && (result.outcome == Done ==>
                  result.db == swept.(requests := swept.requests[q := swept.requests[q].(status := RequestCancelled)]))
  {
  }

  /** Only a verified driver who is present and near enough matches an open request. */
  lemma AcceptRequestIff(db: Db, u: User, q: nat, present: bool, distance: real, now: int)
    ensures var result, swept := AcceptRequest(db, u, q, present, distance, now), Expire(db, now, EXPIRY_LIMIT);
            && result.jobs == []
            && (result.outcome == Done <==>
                  && u.role == Driver && u.verified && present && q < |db.requests|
                  && swept.requests[q].status == Open && distance <= 25.0)
            && (result.outcome != Done ==>
                  if u.role != Driver || !u.verified then result.outcome == Raised(Forbidden) && result.db == db
                  else
                    && result.outcome == Raised(if !present || q >= |db.requests| then NotFound else BadRequest)
                    && result.db == swept)
            && (result.outcome == Done ==> Matches(swept, u.id, q, distance, result.db))
  {
  }

  /** A match adds a full ride of the driver at the request's departure, and an accepted booking of its passenger. */
  ghost predicate Matches(before: Db, driver: nat, q: nat, distance: real, after: Db)
    requires q < |before.requests|
  {
    var request, r, b := before.requests[q], |before.rides|, |before.bookings|;
    && after.ledger == before.ledger
    && |after.rides| == r + 1 && after.rides[..r] == before.rides
    && after.rides[r].driver == driver && after.rides[r].departure == request.departure
    && after.rides[r].seats == 0 && after.rides[r].status == Full && !after.rides[r].active
    && after.rides[r].priceCents == FareCents(distance)
    && |after.bookings| == b + 1 && after.bookings[..b] == before.bookings
    && IsNewBooking(after.bookings[b], r, request.passenger, Accepted)
    && |after.requests| == |before.requests| && after.requests == before.requests[q := after.requests[q]]
    && var matched := after.requests[q];
       && matched.passenger == request.passenger && matched.departure == request.departure
       && matched.createdAt == request.createdAt && matched.status == Matched
       && matched.driver == Some(driver) && matched.ride == Some(r) && matched.booking == Some(b)
  }

  /** The fare: 50 up to the distance that 15 a kilometre makes more of, then 15 a kilometre to the nearest cent. */
  lemma FareIs(distance: real)
    ensures 15.0 * distance <= 50.0 ==> FareCents(distance) == 5000
    ensures 15.0 * distance >= 50.0 ==> -0.5 <= FareCents(distance) as real - 1500.0 * distance <= 0.5
  {
    if 15.0 * distance >= 50.0 {
      assert Money.MaxReal(BASE_FARE, distance * PER_KM_RATE) == 15.0 * distance;
      Money.RoundingError(1500.0 * distance);
    }
  }
}
