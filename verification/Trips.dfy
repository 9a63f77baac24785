/**
 * The stored rows of rides, bookings, payments and ride requests, and what each operation of
 * app/services/ride.py, app/services/booking.py and app/services/dispatch.py does to them.
 */
module Trips {
  import opened Basics
  import opened Listing
  import Money
  import P = Payments

  datatype Role = Passenger | Driver

  datatype User = User(id: nat, role: Role, verified: bool)

  datatype RideStatus = Scheduled | Full | RideCompleted | RideCancelled

  datatype Ride = Ride(driver: nat, seats: int, status: RideStatus, active: bool, departure: int, priceCents: int)

  datatype BookingStatus = Pending | Accepted | Rejected | CancelledByPassenger | CancelledByDriver | Completed

  /** The OTP hash binds the booking id and the code; it is taken as injective and kept as the pair itself. */
  datatype Booking =
    Booking(ride: nat, passenger: nat, status: BookingStatus,
            otpHash: Option<(nat, string)>, otpExpiresAt: Option<int>, boardedAt: Option<int>)

  datatype RequestStatus = Open | Matched | RequestCancelled | RequestExpired

  datatype RideRequest =
    RideRequest(passenger: nat, departure: int, createdAt: int, status: RequestStatus,
                driver: Option<nat>, ride: Option<nat>, booking: Option<nat>)

  /** Row ids are positions; payments are keyed by the booking they pay for. */
  datatype Db = Db(rides: seq<Ride>, bookings: seq<Booking>, ledger: P.Table, requests: seq<RideRequest>)

  const EMPTY := Db([], [], P.Table(map[], map[]), [])

  /** The rows and jobs an operation leaves, and what it reports; a refused one may leave jobs and expirations. */
  datatype Result = Result(db: Db, jobs: seq<P.Job>, outcome: Outcome)

  function Ok(db: Db): Result {
    Result(db, [], Done)
  }

  function Refuse(db: Db, error: Error): Result {
    Result(db, [], Raised(error))
  }

  // ---------------------------------------------------------------- rides

  function CreateRide(db: Db, user: User, seats: int, departure: int, priceCents: int): Result {
    if user.role != Driver || !user.verified then Refuse(db, Forbidden)
    else Ok(db.(rides := db.rides + [Ride(user.id, seats, Scheduled, true, departure, priceCents)]))
  }

  predicate Finished(ride: Ride) {
    ride.status in {RideCompleted, RideCancelled}
  }

  /** How many of the ride's bookings have one of the given statuses. */
  function Count(bookings: seq<Booking>, r: nat, statuses: set<BookingStatus>): nat {
    if bookings == [] then 0
    else Count(bookings[..|bookings| - 1], r, statuses) + Weight(bookings[|bookings| - 1], r, statuses)
  }

  function Weight(b: Booking, r: nat, statuses: set<BookingStatus>): nat {
    if b.ride == r && b.status in statuses then 1 else 0
  }

  function Updated(ride: Ride, seats: int, departure: int, priceCents: int): Ride {
    var status := if seats == 0 then Full else Scheduled;
    ride.(seats := seats, status := status, active := status == Scheduled,
          departure := departure, priceCents := priceCents)
  }

  function UpdateRide(db: Db, user: User, r: nat, seats: int, departure: int, priceCents: int): Result {
    if user.role != Driver then Refuse(db, Forbidden)
    else if r >= |db.rides| then Refuse(db, NotFound)
    else if db.rides[r].driver != user.id then Refuse(db, Forbidden)
    else if Finished(db.rides[r]) then Refuse(db, BadRequest)
    else if seats < Count(db.bookings, r, {Accepted}) then Refuse(db, BadRequest)
    else Ok(db.(rides := db.rides[r := Updated(db.rides[r], seats, departure, priceCents)]))
  }

  /** Every booking of the ride in one of the given statuses moves to `target`. */
  function Moved(bookings: seq<Booking>, r: nat, from: set<BookingStatus>, target: BookingStatus): seq<Booking> {
    seq(|bookings|, i requires 0 <= i < |bookings| => MovedOne(bookings[i], r, from, target))
  }

  function MovedOne(b: Booking, r: nat, from: set<BookingStatus>, target: BookingStatus): Booking {
    if b.ride == r && b.status in from then b.(status := target) else b
  }

  function CancelRide(db: Db, user: User, r: nat): Result {
    if user.role != Driver then Refuse(db, Forbidden)
    else if r >= |db.rides| then Refuse(db, NotFound)
    else if db.rides[r].driver != user.id then Refuse(db, Forbidden)
    else if Finished(db.rides[r]) then Refuse(db, BadRequest)
    else
      Ok(db.(rides := db.rides[r := db.rides[r].(status := RideCancelled, active := false)],
             bookings := Moved(db.bookings, r, {Pending, Accepted}, CancelledByDriver)))
  }

  /** Whether booking i is one of the accepted bookings a ride completion works through. */
  predicate ToComplete(db: Db, r: nat, i: nat) {
    i < |db.bookings| && db.bookings[i].ride == r && db.bookings[i].status == Accepted
  }

  predicate AllBoarded(db: Db, r: nat) {
    forall i | 0 <= i < |db.bookings| && ToComplete(db, r, i) :: db.bookings[i].boardedAt.Some?
  }

  /** The capture of booking i's payment leaves nothing uncaptured; no payment at all is fine. */
  predicate Captures(db: Db, i: nat, ask: nat -> P.Provider) {
    i in db.ledger.payments ==> P.CapturedForBooking(db.ledger.payments[i], ask(i)).status == P.Captured
  }

  /** The payment operations a completion commits, over the bookings below n. */
  function Captured(db: Db, r: nat, ask: nat -> P.Provider, n: nat): seq<P.Action> {
    if n == 0 then []
    else Captured(db, r, ask, n - 1) + if ToComplete(db, r, n - 1) then [P.Capture(n - 1, ask(n - 1))] else []
  }

  /** The retry jobs of the captures below n, which stop at the first payment left uncaptured. */
  function CaptureJobs(db: Db, r: nat, ask: nat -> P.Provider, n: nat): (seq<P.Job>, bool) {
    if n == 0 then ([], true)
    else
      var (jobs, going) := CaptureJobs(db, r, ask, n - 1);
      if !going || !ToComplete(db, r, n - 1) || n - 1 !in db.ledger.payments then (jobs, going)
      else
        (jobs + P.CaptureJobs(n - 1, db.ledger.payments[n - 1], ask(n - 1)), Captures(db, n - 1, ask))
  }

  /** `ask(i)` is what the provider says when the payment of booking i is captured. */
  function CompleteRide(db: Db, user: User, r: nat, ask: nat -> P.Provider): Result {
    if user.role != Driver then Refuse(db, Forbidden)
    else if r >= |db.rides| then Refuse(db, NotFound)
    else if db.rides[r].driver != user.id then Refuse(db, Forbidden)
    else if Finished(db.rides[r]) || !AllBoarded(db, r) then Refuse(db, BadRequest)
    else
      var (jobs, captured) := CaptureJobs(db, r, ask, |db.bookings|);
      if !captured then Result(db, jobs, Raised(Conflict))
      else
        Result(
          db.(rides := db.rides[r := db.rides[r].(status := RideCompleted, active := false)],
              bookings := Moved(db.bookings, r, {Accepted}, Completed),
              ledger := P.After(db.ledger, Captured(db, r, ask, |db.bookings|))),
          jobs, Done)
  }

  // ---------------------------------------------------------------- bookings

  function NewBooking(r: nat, passenger: nat, status: BookingStatus): Booking {
    Booking(r, passenger, status, None, None, None)
  }

  predicate HasBooking(bookings: seq<Booking>, r: nat, passenger: nat) {
    exists i | 0 <= i < |bookings| :: bookings[i].ride == r && bookings[i].passenger == passenger
  }

  function CreateBooking(db: Db, user: User, r: nat): Result {
    if user.role != Passenger then Refuse(db, Forbidden)
    else if r >= |db.rides| || db.rides[r].status != Scheduled || !db.rides[r].active then Refuse(db, NotFound)
    else if db.rides[r].driver == user.id || db.rides[r].seats < 1 then Refuse(db, BadRequest)
    else if HasBooking(db.bookings, r, user.id) then Refuse(db, BadRequest)
    else Ok(db.(bookings := db.bookings + [NewBooking(r, user.id, Pending)]))
  }

  function SeatTaken(ride: Ride): Ride {
    var seats := ride.seats - 1;
    var status := if seats == 0 then Full else Scheduled;
    ride.(seats := seats, status := status, active := status == Scheduled)
  }

  function SeatReturned(ride: Ride): Ride {
    ride.(seats := ride.seats + 1, status := Scheduled, active := true)
  }

  predicate Known(db: Db, b: nat) {
    b < |db.bookings| && db.bookings[b].ride < |db.rides|
  }

  function Accept(db: Db, b: nat, v: P.Provider): Result
    requires Known(db, b)
  {
    var booking := db.bookings[b];
    var ride := db.rides[booking.ride];
    if booking.status != Pending || ride.seats < 1 then Refuse(db, BadRequest)
    else
      Result(
        db.(bookings := db.bookings[b := booking.(status := Accepted)],
            rides := db.rides[booking.ride := SeatTaken(ride)],
            ledger := P.Step(db.ledger, P.Capture(b, v))),
        if b in db.ledger.payments then P.CaptureJobs(b, db.ledger.payments[b], v) else [],
        Done)
  }

  function Reject(db: Db, b: nat): Result
    requires Known(db, b)
  {
    if db.bookings[b].status != Pending then Refuse(db, BadRequest)
    else Ok(db.(bookings := db.bookings[b := db.bookings[b].(status := Rejected)]))
  }

  /** Either side's cancellation: an accepted booking gives its seat back, and the payment is refunded. */
  function Cancel(db: Db, b: nat, target: BookingStatus, v: P.Provider): Result
    requires Known(db, b)
  {
    var booking := db.bookings[b];
    if booking.status !in {Pending, Accepted} then Refuse(db, BadRequest)
    else
      Result(
        db.(bookings := db.bookings[b := booking.(status := target)],
            rides := if booking.status == Accepted
                     then db.rides[booking.ride := SeatReturned(db.rides[booking.ride])] else db.rides,
            ledger := P.Step(db.ledger, P.Refund(b, v))),
        if b in db.ledger.payments then P.RefundJobs(b, db.ledger.payments[b], v) else [],
        Done)
  }

  function CompleteBooking(db: Db, b: nat): Result
    requires Known(db, b)
  {
    if db.bookings[b].status != Accepted || db.bookings[b].boardedAt.None? then Refuse(db, BadRequest)
    else Ok(db.(bookings := db.bookings[b := db.bookings[b].(status := Completed)]))
  }

  function DriverTransition(db: Db, b: nat, status: BookingStatus, v: P.Provider): Result
    requires Known(db, b)
  {
    match status
    case Accepted => Accept(db, b, v)
    case Rejected => Reject(db, b)
    case CancelledByDriver => Cancel(db, b, CancelledByDriver, v)
    case Completed => CompleteBooking(db, b)
    case _ => Refuse(db, BadRequest)
  }

  function PassengerTransition(db: Db, b: nat, status: BookingStatus, v: P.Provider): Result
    requires Known(db, b)
  {
    if status != CancelledByPassenger then Refuse(db, Forbidden)
    else Cancel(db, b, CancelledByPassenger, v)
  }

  function UpdateStatus(db: Db, user: nat, b: nat, status: BookingStatus, v: P.Provider): Result {
    if !Known(db, b) then Refuse(db, NotFound)
    else if db.rides[db.bookings[b].ride].driver == user then DriverTransition(db, b, status, v)
    else if db.bookings[b].passenger == user then PassengerTransition(db, b, status, v)
    else Refuse(db, Forbidden)
  }

  /** BOARDING_OTP_EXPIRE_MINUTES is the life of a code; `otp` is the random code drawn. */
  function IssueOtp(db: Db, user: nat, b: nat, otp: string, now: int, life: int): Result {
    if b >= |db.bookings| then Refuse(db, NotFound)
    else
      var booking := db.bookings[b];
      if booking.passenger != user then Refuse(db, Forbidden)
      else if booking.status != Accepted || booking.boardedAt.Some? then Refuse(db, BadRequest)
      else Ok(db.(bookings := db.bookings[b := booking.(otpHash := Some((b, otp)), otpExpiresAt := Some(now + life))]))
  }

  function VerifyOtp(db: Db, user: nat, b: nat, otp: string, now: int): Result {
    if !Known(db, b) then Refuse(db, NotFound)
    else
      var booking := db.bookings[b];
      if db.rides[booking.ride].driver != user then Refuse(db, Forbidden)
      else if booking.status != Accepted then Refuse(db, BadRequest)
      else if booking.boardedAt.Some? then Ok(db)
      else if booking.otpHash.None? || booking.otpExpiresAt.None? then Refuse(db, BadRequest)
      else if booking.otpExpiresAt.value <= now || booking.otpHash.value != (b, otp) then Refuse(db, BadRequest)
      else
        var boarded := booking.(boardedAt := Some(now), otpHash := None, otpExpiresAt := None);
        Ok(db.(bookings := db.bookings[b := boarded]))
  }

  // ---------------------------------------------------------------- dispatch

  const EXPIRY_LIMIT: nat := 500
  const RADIUS_KM := 25.0
  const BASE_FARE := 50.0
  const PER_KM_RATE := 15.0

  /** Open requests whose departure is past, latest departure first. */
  function StaleKeys(requests: seq<RideRequest>, now: int): seq<Option<int>> {
    seq(|requests|, i requires 0 <= i < |requests| =>
      if requests[i].status == Open && requests[i].departure < now then Some(-requests[i].departure) else None)
  }

  /** Open requests the driver has not dismissed, newest first. */
  function OpenKeys(requests: seq<RideRequest>, dismissed: set<nat>): seq<Option<int>> {
    seq(|requests|, i requires 0 <= i < |requests| =>
      if requests[i].status == Open && i !in dismissed then Some(-requests[i].createdAt) else None)
  }

  function ExpirablePage(requests: seq<RideRequest>, now: int, limit: nat): seq<Entry> {
    Query(StaleKeys(requests, now), limit)
  }

  predicate OnPage(page: seq<Entry>, i: nat) {
    exists k | 0 <= k < |page| :: page[k].place == i
  }

  /** The requests on the page become expired. */
  function Closed(requests: seq<RideRequest>, page: seq<Entry>): seq<RideRequest> {
    seq(|requests|, i requires 0 <= i < |requests| =>
      if OnPage(page, i) then requests[i].(status := RequestExpired) else requests[i])
  }

  function Expire(db: Db, now: int, limit: nat): Db {
    db.(requests := Closed(db.requests, ExpirablePage(db.requests, now, limit)))
  }

  predicate HasOpen(requests: seq<RideRequest>, passenger: nat) {
    exists i | 0 <= i < |requests| :: requests[i].passenger == passenger && requests[i].status == Open
  }

  function NewRequest(passenger: nat, departure: int, now: int): RideRequest {
    RideRequest(passenger, departure, now, Open, None, None, None)
  }

  /** Stale requests are expired and committed before anything is checked. */
  function CreateRequest(db: Db, user: User, departure: int, now: int): Result {
    if user.role != Passenger then Refuse(db, Forbidden)
    else
      var swept := Expire(db, now, EXPIRY_LIMIT);
      if HasOpen(swept.requests, user.id) then Refuse(swept, BadRequest)
      else Ok(swept.(requests := swept.requests + [NewRequest(user.id, departure, now)]))
  }

  function CancelRequest(db: Db, user: User, q: nat, now: int): Result {
    if user.role != Passenger then Refuse(db, Forbidden)
    else if q >= |db.requests| || db.requests[q].passenger != user.id then Refuse(db, NotFound)
    else
      var swept := Expire(db, now, EXPIRY_LIMIT);
      if swept.requests[q].status != Open then Refuse(swept, BadRequest)
      else Ok(swept.(requests := swept.requests[q := swept.requests[q].(status := RequestCancelled)]))
  }

  function FareCents(distance: real): int {
    Money.FareCents(BASE_FARE, PER_KM_RATE, distance)
  }

  /** The match: a full ride of one seat, an accepted booking of the passenger on it, and the request tied to both. */
  function MatchRequest(db: Db, driver: nat, q: nat, distance: real): Db
    requires q < |db.requests|
  {
    var request := db.requests[q];
    var r, b := |db.rides|, |db.bookings|;
    db.(rides := db.rides + [Ride(driver, 0, Full, false, request.departure, FareCents(distance))],
        bookings := db.bookings + [NewBooking(r, request.passenger, Accepted)],
        requests := db.requests[q := request.(status := Matched,
                                              driver := Some(driver), ride := Some(r), booking := Some(b))])
  }

  /** `present`: the driver's availability is online and fresh; `distance`: from there to the request's origin. */
  function AcceptRequest(db: Db, user: User, q: nat, present: bool, distance: real, now: int): Result {
    if user.role != Driver || !user.verified then Refuse(db, Forbidden)
    else
      var swept := Expire(db, now, EXPIRY_LIMIT);
      if !present || q >= |swept.requests| then Refuse(swept, NotFound)
      else if swept.requests[q].status != Open || distance > RADIUS_KM then Refuse(swept, BadRequest)
      else Ok(MatchRequest(swept, user.id, q, distance))
  }
}
