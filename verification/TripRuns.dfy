/** Whole runs over the stored rows: what every step keeps, and what holds in every reachable state. */
module TripRuns {
  import opened Basics
  import opened Trips
  import P = Payments

  datatype Action =
    | DoCreateRide(user: User, seats: int, departure: int, priceCents: int)
    | DoUpdateRide(user: User, r: nat, seats: int, departure: int, priceCents: int)
    | DoCancelRide(user: User, r: nat)
    | DoCompleteRide(user: User, r: nat, ask: nat -> P.Provider)
    | DoCreateBooking(user: User, r: nat)
    | DoUpdateStatus(userId: nat, b: nat, status: BookingStatus, provider: P.Provider)
    | DoIssueOtp(userId: nat, b: nat, otp: string, now: int, life: int)
    | DoVerifyOtp(userId: nat, b: nat, otp: string, now: int)
    | DoPayment(action: P.Action)
    | DoCreateRequest(user: User, departure: int, now: int)
    | DoCancelRequest(user: User, q: nat, now: int)
    | DoAcceptRequest(user: User, q: nat, present: bool, distance: real, now: int)
    | DoExpire(now: int, limit: nat)

  function Perform(db: Db, a: Action): Result {
    match a
    case DoCreateRide(u, seats, departure, price) => CreateRide(db, u, seats, departure, price)
    case DoUpdateRide(u, r, seats, departure, price) => UpdateRide(db, u, r, seats, departure, price)
    case DoCancelRide(u, r) => CancelRide(db, u, r)
    case DoCompleteRide(u, r, ask) => CompleteRide(db, u, r, ask)
    case DoCreateBooking(u, r) => CreateBooking(db, u, r)
    case DoUpdateStatus(u, b, status, v) => UpdateStatus(db, u, b, status, v)
    case DoIssueOtp(u, b, otp, now, life) => IssueOtp(db, u, b, otp, now, life)
    case DoVerifyOtp(u, b, otp, now) => VerifyOtp(db, u, b, otp, now)
    case DoPayment(p) => Result(db.(ledger := P.Step(db.ledger, p)), P.JobsOf(db.ledger, p), Done)
    case DoCreateRequest(u, departure, now) => CreateRequest(db, u, departure, now)
    case DoCancelRequest(u, q, now) => CancelRequest(db, u, q, now)
    case DoAcceptRequest(u, q, present, distance, now) => AcceptRequest(db, u, q, present, distance, now)
    case DoExpire(now, limit) => Ok(Expire(db, now, limit))
  }

  /** What request validation guarantees: a new ride has a seat, an update no negative number of them. */
  predicate Legal(a: Action) {
    (a.DoCreateRide? ==> a.seats >= 1) && (a.DoUpdateRide? ==> a.seats >= 0)
  }

  const TAKEN := {Accepted, Completed}

  function Taken(db: Db, r: nat): nat {
    Count(db.bookings, r, TAKEN)
  }

  /** The rows, and the seats each ride was given by its creation or its last update. */
  datatype World = World(db: Db, capacity: seq<int>)

  const START := World(EMPTY, [])

  function NextCapacity(w: World, a: Action): seq<int> {
    if Perform(w.db, a).outcome != Done then w.capacity
    else
      match a
      case DoCreateRide(_, seats, _, _) => w.capacity + [seats]
      case DoAcceptRequest(_, _, _, _, _) => w.capacity + [1]
      case DoUpdateRide(_, r, seats, _, _) =>
        if r < |w.capacity| then w.capacity[r := seats + Taken(w.db, r)] else w.capacity
      case _ => w.capacity
  }

  function Next(w: World, a: Action): World {
    World(Perform(w.db, a).db, NextCapacity(w, a))
  }

  function After(w: World, run: seq<Action>): World {
    if run == [] then w else Next(After(w, run[..|run| - 1]), run[|run| - 1])
  }

  lemma AfterOneMore(w: World, run: seq<Action>, a: Action)
    ensures After(w, run + [a]) == Next(After(w, run), a)
  {
    assert (run + [a])[..|run|] == run;
  }

  ghost predicate LegalRun(run: seq<Action>) {
    forall i | 0 <= i < |run| :: Legal(run[i])
  }

  // ---------------------------------------------------------------- counting bookings

  lemma {:induction false} CountUpdate(bs: seq<Booking>, i: nat, b: Booking, r: nat, statuses: set<BookingStatus>)
    requires i < |bs|
    ensures Count(bs[i := b], r, statuses)
            == Count(bs, r, statuses) - Weight(bs[i], r, statuses) + Weight(b, r, statuses)
  {
    var n := |bs| - 1;
    if i < n {
      assert bs[i := b][..n] == bs[..n][i := b];
      CountUpdate(bs[..n], i, b, r, statuses);
    } else {
      assert bs[i := b][..n] == bs[..n];
    }
  }

  lemma CountAppend(bs: seq<Booking>, b: Booking, r: nat, statuses: set<BookingStatus>)
    ensures Count(bs + [b], r, statuses) == Count(bs, r, statuses) + Weight(b, r, statuses)
  {
  }

  lemma {:induction false} CountNone(bs: seq<Booking>, r: nat, statuses: set<BookingStatus>)
    requires forall i | 0 <= i < |bs| :: Weight(bs[i], r, statuses) == 0
    ensures Count(bs, r, statuses) == 0
  {
    if bs == [] {
    } else {
      CountNone(bs[..|bs| - 1], r, statuses);
    }
  }

  /** Moving bookings to another status changes the count only of their own ride, and up only into the counted ones. */
  lemma {:induction false} CountMoved(
      bs: seq<Booking>, moved: nat, from: set<BookingStatus>, target: BookingStatus, r: nat)
    ensures target !in TAKEN || from <= TAKEN ==> Count(Moved(bs, moved, from, target), r, TAKEN) <= Count(bs, r, TAKEN)
    ensures r != moved || (from <= TAKEN && target in TAKEN) ==>
              Count(Moved(bs, moved, from, target), r, TAKEN) == Count(bs, r, TAKEN)
  {
    if bs == [] {
    } else {
      var n := |bs| - 1;
      assert Moved(bs, moved, from, target)[..n] == Moved(bs[..n], moved, from, target);
      CountMoved(bs[..n], moved, from, target, r);
    }
  }

  // ---------------------------------------------------------------- the invariant

  ghost predicate RideCoherent(ride: Ride) {
    && ride.seats >= 0
    && (ride.active <==> ride.status == Scheduled)
    && (ride.status == Scheduled ==> ride.seats >= 1)
    && (ride.status == Full ==> ride.seats == 0)
  }

  ghost predicate BookingCoherent(b: Booking, ride: Ride) {
    && (b.status == Accepted ==> !Finished(ride))
    && (ride.status == RideCancelled ==> b.status !in {Pending, Accepted})
    && (b.status == Completed ==> b.boardedAt.Some?)
    && (b.otpHash.Some? <==> b.otpExpiresAt.Some?)
    && (b.boardedAt.Some? ==> b.otpHash.None?)
  }

  /** Every booking is of a stored ride. */
  ghost predicate Linked(rides: seq<Ride>, bookings: seq<Booking>) {
    forall i | 0 <= i < |bookings| :: bookings[i].ride < |rides|
  }

  ghost predicate CoherentRows(rides: seq<Ride>, bookings: seq<Booking>) {
    && Linked(rides, bookings)
    && (forall r | 0 <= r < |rides| :: RideCoherent(rides[r]))
    && (forall i | 0 <= i < |bookings| :: BookingCoherent(bookings[i], rides[bookings[i].ride]))
  }

  ghost predicate Coherent(db: Db) {
    CoherentRows(db.rides, db.bookings)
  }

  /** The free and the taken seats make up the capacity; a cancelled ride drops its passengers without freeing seats. */
  ghost predicate SeatsConserved(w: World) {
    && |w.capacity| == |w.db.rides|
    && forall r | 0 <= r < |w.db.rides| ::
         if w.db.rides[r].status == RideCancelled then w.db.rides[r].seats + Taken(w.db, r) <= w.capacity[r]
         else w.db.rides[r].seats + Taken(w.db, r) == w.capacity[r]
  }

  ghost predicate Inv(w: World) {
    Coherent(w.db) && SeatsConserved(w)
  }

  lemma CreateRideInv(w: World, u: User, seats: int, departure: int, price: int)
    requires Inv(w) && seats >= 1
    ensures Inv(World(w.db.(rides := w.db.rides + [Ride(u.id, seats, Scheduled, true, departure, price)]),
                      w.capacity + [seats]))
  {
    CountNone(w.db.bookings, |w.db.rides|, TAKEN);
  }

  lemma CancelRideInv(w: World, r: nat)
    requires Inv(w) && r < |w.db.rides|
    ensures Inv(World(w.db.(rides := w.db.rides[r := w.db.rides[r].(status := RideCancelled, active := false)],
                            bookings := Moved(w.db.bookings, r, {Pending, Accepted}, CancelledByDriver)),
                      w.capacity))
  {
    forall k | 0 <= k < |w.db.rides|
      ensures Count(Moved(w.db.bookings, r, {Pending, Accepted}, CancelledByDriver), k, TAKEN) <= Taken(w.db, k)
      ensures k != r ==>
                Count(Moved(w.db.bookings, r, {Pending, Accepted}, CancelledByDriver), k, TAKEN) == Taken(w.db, k)
    {
      CountMoved(w.db.bookings, r, {Pending, Accepted}, CancelledByDriver, k);
    }
  }

  lemma CompleteRideInv(w: World, r: nat, ledger: P.Table)
    requires Inv(w) && r < |w.db.rides| && !Finished(w.db.rides[r]) && AllBoarded(w.db, r)
    ensures Inv(World(w.db.(rides := w.db.rides[r := w.db.rides[r].(status := RideCompleted, active := false)],
                            bookings := Moved(w.db.bookings, r, {Accepted}, Completed),
                            ledger := ledger),
                      w.capacity))
  {
    forall k | 0 <= k < |w.db.rides|
      ensures Count(Moved(w.db.bookings, r, {Accepted}, Completed), k, TAKEN) == Taken(w.db, k)
    {
      CountMoved(w.db.bookings, r, {Accepted}, Completed, k);
    }
    assert forall i | 0 <= i < |w.db.bookings| && w.db.bookings[i].ride == r && w.db.bookings[i].status == Accepted ::
        ToComplete(w.db, r, i);
  }

  lemma CreateBookingInv(w: World, r: nat, passenger: nat)
    requires Inv(w) && r < |w.db.rides| && w.db.rides[r].status == Scheduled
    ensures Inv(World(w.db.(bookings := w.db.bookings + [NewBooking(r, passenger, Pending)]), w.capacity))
  {
  }

  /** Replacing one booking row of the same ride and leaving the rides alone, with the same weight. */
  lemma BookingRowInv(w: World, b: nat, row: Booking, ledger: P.Table)
    requires Inv(w) && b < |w.db.bookings| && row.ride == w.db.bookings[b].ride
    requires BookingCoherent(row, w.db.rides[row.ride])
    requires row.status in TAKEN <==> w.db.bookings[b].status in TAKEN
    ensures Inv(World(w.db.(bookings := w.db.bookings[b := row], ledger := ledger), w.capacity))
  {
    forall r | 0 <= r < |w.db.rides| ensures Count(w.db.bookings[b := row], r, TAKEN) == Taken(w.db, r) {
      CountUpdate(w.db.bookings, b, row, r, TAKEN);
    }
  }

  /** A seat moves between the ride and the booking: the ride is not finished and the sum stays. */
  lemma SeatMovesInv(w: World, b: nat, row: Booking, ride: Ride, ledger: P.Table)
    requires Inv(w) && b < |w.db.bookings| && row.ride == w.db.bookings[b].ride
    requires RideCoherent(ride) && !Finished(ride) && w.db.rides[row.ride].status != RideCancelled
    requires BookingCoherent(row, ride)
    requires ride.seats + Weight(row, row.ride, TAKEN)
             == w.db.rides[row.ride].seats + Weight(w.db.bookings[b], row.ride, TAKEN)
    ensures Inv(World(w.db.(bookings := w.db.bookings[b := row], rides := w.db.rides[row.ride := ride],
                            ledger := ledger),
                      w.capacity))
  {
    forall r | 0 <= r < |w.db.rides|
      ensures Count(w.db.bookings[b := row], r, TAKEN)
              == Taken(w.db, r) - Weight(w.db.bookings[b], r, TAKEN) + Weight(row, r, TAKEN)
    {
      CountUpdate(w.db.bookings, b, row, r, TAKEN);
    }
  }

  lemma UpdateStatusInv(w: World, u: nat, b: nat, status: BookingStatus, v: P.Provider)
    requires Inv(w)
    ensures Inv(World(UpdateStatus(w.db, u, b, status, v).db, w.capacity))
  {
    if Known(w.db, b) && UpdateStatus(w.db, u, b, status, v).outcome == Done {
      var booking := w.db.bookings[b];
      var ride := w.db.rides[booking.ride];
      var row := booking.(status := status);
      var ledger := UpdateStatus(w.db, u, b, status, v).db.ledger;
      if status == Accepted {
        SeatMovesInv(w, b, row, SeatTaken(ride), ledger);
      } else if booking.status == Accepted && status != Completed {
        SeatMovesInv(w, b, row, SeatReturned(ride), ledger);
      } else {
        BookingRowInv(w, b, row, ledger);
      }
    }
  }

  lemma IssueOtpInv(w: World, u: nat, b: nat, otp: string, now: int, life: int)
    requires Inv(w)
    ensures Inv(World(IssueOtp(w.db, u, b, otp, now, life).db, w.capacity))
  {
    if IssueOtp(w.db, u, b, otp, now, life).outcome == Done {
      var row := w.db.bookings[b].(otpHash := Some((b, otp)), otpExpiresAt := Some(now + life));
      BookingRowInv(w, b, row, w.db.ledger);
    }
  }

  lemma VerifyOtpInv(w: World, u: nat, b: nat, otp: string, now: int)
    requires Inv(w)
    ensures Inv(World(VerifyOtp(w.db, u, b, otp, now).db, w.capacity))
  {
    if VerifyOtp(w.db, u, b, otp, now).outcome == Done && w.db.bookings[b].boardedAt.None? {
      var row := w.db.bookings[b].(boardedAt := Some(now), otpHash := None, otpExpiresAt := None);
      BookingRowInv(w, b, row, w.db.ledger);
    }
  }

  /** Nothing in the invariant depends on the requests or the payments. */
  lemma OtherTablesInv(w: World, requests: seq<RideRequest>, ledger: P.Table)
    requires Inv(w)
    ensures Inv(World(w.db.(requests := requests, ledger := ledger), w.capacity))
  {
  }

  lemma MatchRequestInv(w: World, driver: nat, q: nat, distance: real)
    requires Inv(w) && q < |w.db.requests|
    ensures Inv(World(MatchRequest(w.db, driver, q, distance), w.capacity + [1]))
  {
    var n := |w.db.rides|;
    var b := NewBooking(n, w.db.requests[q].passenger, Accepted);
    forall r | 0 <= r <= n ensures Count(w.db.bookings + [b], r, TAKEN) == Taken(w.db, r) + Weight(b, r, TAKEN) {
      CountAppend(w.db.bookings, b, r, TAKEN);
    }
    CountNone(w.db.bookings, n, TAKEN);
  }

  lemma AcceptRequestInv(w: World, u: User, q: nat, present: bool, distance: real, now: int)
    requires Inv(w)
    ensures var result := AcceptRequest(w.db, u, q, present, distance, now);
            Inv(World(result.db, if result.outcome == Done then w.capacity + [1] else w.capacity))
  {
    var swept := Expire(w.db, now, EXPIRY_LIMIT);
    OtherTablesInv(w, swept.requests, w.db.ledger);
    if AcceptRequest(w.db, u, q, present, distance, now).outcome == Done {
      MatchRequestInv(World(swept, w.capacity), u.id, q, distance);
    }
  }

  lemma DoCreateRideInv(w: World, u: User, seats: int, departure: int, price: int)
    requires Inv(w) && seats >= 1
    ensures var result := CreateRide(w.db, u, seats, departure, price);
            Inv(World(result.db, if result.outcome == Done then w.capacity + [seats] else w.capacity))
  {
    CreateRideInv(w, u, seats, departure, price);
  }

  lemma DoUpdateRideInv(w: World, u: User, r: nat, seats: int, departure: int, price: int)
    requires Inv(w) && seats >= 0
    ensures var result := UpdateRide(w.db, u, r, seats, departure, price);
            result.outcome == Done ==>
              r < |w.capacity| && Inv(World(result.db, w.capacity[r := seats + Taken(w.db, r)]))
    ensures var result := UpdateRide(w.db, u, r, seats, departure, price);
            result.outcome != Done ==> Inv(World(result.db, w.capacity))
  {
  }

  lemma DoCancelRideInv(w: World, u: User, r: nat)
    requires Inv(w)
    ensures Inv(World(CancelRide(w.db, u, r).db, w.capacity))
  {
    if CancelRide(w.db, u, r).outcome == Done {
      CancelRideInv(w, r);
    }
  }

  lemma DoCompleteRideInv(w: World, u: User, r: nat, ask: nat -> P.Provider)
    requires Inv(w)
    ensures Inv(World(CompleteRide(w.db, u, r, ask).db, w.capacity))
  {
    if CompleteRide(w.db, u, r, ask).outcome == Done {
      CompleteRideInv(w, r, P.After(w.db.ledger, Captured(w.db, r, ask, |w.db.bookings|)));
    }
  }

  lemma DoCreateBookingInv(w: World, u: User, r: nat)
    requires Inv(w)
    ensures Inv(World(CreateBooking(w.db, u, r).db, w.capacity))
  {
    if CreateBooking(w.db, u, r).outcome == Done {
      CreateBookingInv(w, r, u.id);
    }
  }

  lemma RideStepInv(w: World, a: Action)
    requires Inv(w) && Legal(a)
    requires a.DoCreateRide? || a.DoUpdateRide? || a.DoCancelRide? || a.DoCompleteRide? || a.DoCreateBooking?
    ensures Inv(Next(w, a))
  {
    match a
    case DoCreateRide(u, seats, departure, price) => DoCreateRideInv(w, u, seats, departure, price);
    case DoUpdateRide(u, r, seats, departure, price) => DoUpdateRideInv(w, u, r, seats, departure, price);
    case DoCancelRide(u, r) => DoCancelRideInv(w, u, r);
    case DoCompleteRide(u, r, ask) => DoCompleteRideInv(w, u, r, ask);
    case DoCreateBooking(u, r) => DoCreateBookingInv(w, u, r);
  }

  lemma BookingStepInv(w: World, a: Action)
    requires Inv(w) && (a.DoUpdateStatus? || a.DoIssueOtp? || a.DoVerifyOtp?)
    ensures Inv(Next(w, a))
  {
    match a
    case DoUpdateStatus(u, b, status, v) => UpdateStatusInv(w, u, b, status, v);
    case DoIssueOtp(u, b, otp, now, life) => IssueOtpInv(w, u, b, otp, now, life);
    case DoVerifyOtp(u, b, otp, now) => VerifyOtpInv(w, u, b, otp, now);
  }

  lemma RequestStepInv(w: World, a: Action)
    requires Inv(w)
    requires a.DoPayment? || a.DoCreateRequest? || a.DoCancelRequest? || a.DoAcceptRequest? || a.DoExpire?
    ensures Inv(Next(w, a))
  {
    if a.DoAcceptRequest? {
      AcceptRequestInv(w, a.user, a.q, a.present, a.distance, a.now);
    } else {
      OtherTablesInv(w, Perform(w.db, a).db.requests, Perform(w.db, a).db.ledger);
    }
  }

  /** Every step of every service keeps the coherence of the rows and the conservation of seats. */
  lemma {:induction false} StepInv(w: World, a: Action)
    requires Inv(w) && Legal(a)
    ensures Inv(Next(w, a))
  {
    if a.DoCreateRide? || a.DoUpdateRide? || a.DoCancelRide? || a.DoCompleteRide? || a.DoCreateBooking? {
      RideStepInv(w, a);
    } else if a.DoUpdateStatus? || a.DoIssueOtp? || a.DoVerifyOtp? {
      BookingStepInv(w, a);
    } else {
      RequestStepInv(w, a);
    }
  }

  ghost function CapacityOf(db: Db): seq<int> {
    seq(|db.rides|, r requires 0 <= r < |db.rides| => db.rides[r].seats + Taken(db, r))
  }

  /** One operation keeps coherent rows coherent. */
  lemma {:induction false} StepCoherent(db: Db, a: Action)
    requires Coherent(db) && Legal(a)
    ensures Coherent(Perform(db, a).db)
  {
    StepInv(World(db, CapacityOf(db)), a);
  }

  lemma StatusCoherent(db: Db, u: nat, b: nat, status: BookingStatus, v: P.Provider)
    requires Coherent(db)
    ensures Coherent(UpdateStatus(db, u, b, status, v).db)
  {
    StepCoherent(db, DoUpdateStatus(u, b, status, v));
  }

  lemma {:induction false} Reachable(run: seq<Action>)
    requires LegalRun(run)
    ensures Inv(After(START, run))
  {
    if run == [] {
    } else {
      Reachable(run[..|run| - 1]);
      StepInv(After(START, run[..|run| - 1]), run[|run| - 1]);
    }
  }
}
