/** The booking operations of app/services/booking.py, on the session's tables. */
module BookingService {
  import opened Basics
  import opened Database
  import opened Trips
  import P = Payments
  import PaymentService
  import TripHistory
  import TripRuns

  class Service {
    const db: Session
    const payments: PaymentService.Service

    constructor (db: Session)
      ensures this.db == db && Wired()
    {
      this.db := db;
      this.payments := new PaymentService.Service(db);
    }

    /** The payment service works on the same session. */
    ghost predicate Wired() {
      payments.db == db
    }

    method CreateBooking(user: User, r: nat) returns (outcome: Outcome)
      modifies db`bookings
      ensures Result(db.Rows(), [], outcome) == Trips.CreateBooking(old(db.Rows()), user, r)
      ensures old(db.Valid()) ==> db.Valid()
    {
      if db.Valid() {
        TripRuns.StepCoherent(db.Rows(), TripRuns.DoCreateBooking(user, r));
      }
      if user.role != Passenger {
        return Raised(Forbidden);
      }
      if r >= |db.rides| || db.rides[r].status != Scheduled || !db.rides[r].active {
        return Raised(NotFound);
      }
      if db.rides[r].driver == user.id {
        return Raised(BadRequest);
      }
      if db.rides[r].seats < 1 {
        return Raised(BadRequest);
      }
      var existing := FindByRideAndPassenger(r, user.id);
      if existing.Some? {
        return Raised(BadRequest);
      }
      db.bookings := db.bookings + [NewBooking(r, user.id, Pending)];
      return Done;
    }

    method FindByRideAndPassenger(r: nat, passenger: nat) returns (found: Option<nat>)
      ensures found.Some? <==> HasBooking(db.bookings, r, passenger)
      ensures found.Some? ==>
                && found.value < |db.bookings|
                && db.bookings[found.value].ride == r && db.bookings[found.value].passenger == passenger
    {
      for i := 0 to |db.bookings|
        invariant !HasBooking(db.bookings[..i], r, passenger)
      {
        if db.bookings[i].ride == r && db.bookings[i].passenger == passenger {
          return Some(i);
        }
      }
      assert db.bookings[..|db.bookings|] == db.bookings;
      return None;
    }

    method UpdateStatus(user: nat, b: nat, status: BookingStatus, v: P.Provider) returns (outcome: Outcome)
      requires Wired() && db.Linked()
      modifies db`bookings, db`rides, db`payments, db`jobs
      ensures var result := Trips.UpdateStatus(old(db.Rows()), user, b, status, v);
              && outcome == result.outcome && db.Rows() == result.db && db.jobs == old(db.jobs) + result.jobs
      ensures db.Linked()
      ensures outcome == Done <==> TripHistory.Permitted(old(db.Rows()), user, b, status)
      ensures outcome == Done ==> TripHistory.OnlyMoved(old(db.Rows()), db.Rows(), b, status)
      ensures old(db.Valid()) ==> db.Valid()
    {
      TripHistory.StatusChange(db.Rows(), user, b, status, v);
      if db.Valid() {
        TripRuns.StatusCoherent(db.Rows(), user, b, status, v);
      }
      if b >= |db.bookings| {
        return Raised(NotFound);
      }
      if db.rides[db.bookings[b].ride].driver == user {
        outcome := ApplyDriverTransition(b, status, v);
      } else if db.bookings[b].passenger == user {
        outcome := ApplyPassengerTransition(b, status, v);
      } else {
        return Raised(Forbidden);
      }
    }

    method SetStatus(b: nat, status: BookingStatus)
      requires b < |db.bookings|
      modifies db`bookings
      ensures db.bookings == old(db.bookings)[b := old(db.bookings)[b].(status := status)]
    {
      db.bookings := db.bookings[b := db.bookings[b].(status := status)];
    }

    method TakeSeat(r: nat)
      requires r < |db.rides|
      modifies db`rides
      ensures db.rides == old(db.rides)[r := SeatTaken(old(db.rides)[r])]
    {
      db.rides := db.rides[r := db.rides[r].(seats := db.rides[r].seats - 1)];
      db.rides := db.rides[r := db.rides[r].(status := if db.rides[r].seats == 0 then Full else Scheduled)];
      db.rides := db.rides[r := db.rides[r].(active := db.rides[r].status == Scheduled)];
    }

    /** A cancelled acceptance gives its seat back and puts the ride up again, whatever its status. */
    method ReturnSeat(r: nat)
      requires r < |db.rides|
      modifies db`rides
      ensures db.rides == old(db.rides)[r := SeatReturned(old(db.rides)[r])]
    {
      db.rides := db.rides[r := db.rides[r].(seats := db.rides[r].seats + 1)];
      db.rides := db.rides[r := db.rides[r].(status := Scheduled, active := true)];
    }

    method ApplyDriverTransition(b: nat, status: BookingStatus, v: P.Provider) returns (outcome: Outcome)
      requires Wired() && db.Linked() && b < |db.bookings|
      modifies db`bookings, db`rides, db`payments, db`jobs
      ensures var result := DriverTransition(old(db.Rows()), b, status, v);
              && outcome == result.outcome && db.Rows() == result.db && db.jobs == old(db.jobs) + result.jobs
      ensures db.Linked()
    {
      var booking := db.bookings[b];
      match status {
        case Accepted =>
          if booking.status != Pending {
            return Raised(BadRequest);
          }
          if db.rides[booking.ride].seats < 1 {
            return Raised(BadRequest);
          }
          SetStatus(b, Accepted);
          TakeSeat(booking.ride);
          payments.CapturePaymentForBooking(b, v);
          return Done;
        case Rejected =>
          if booking.status != Pending {
            return Raised(BadRequest);
          }
          SetStatus(b, Rejected);
          return Done;
        case CancelledByDriver =>
          outcome := ApplyCancellation(b, CancelledByDriver, v);
        case Completed =>
          if booking.status != Accepted {
            return Raised(BadRequest);
          }
          if booking.boardedAt.None? {
            return Raised(BadRequest);
          }
          SetStatus(b, Completed);
          return Done;
        case _ =>
          return Raised(BadRequest);
      }
    }

    method ApplyPassengerTransition(b: nat, status: BookingStatus, v: P.Provider) returns (outcome: Outcome)
      requires Wired() && db.Linked() && b < |db.bookings|
      modifies db`bookings, db`rides, db`payments, db`jobs
      ensures var result := PassengerTransition(old(db.Rows()), b, status, v);
              && outcome == result.outcome && db.Rows() == result.db && db.jobs == old(db.jobs) + result.jobs
      ensures db.Linked()
    {
      if status != CancelledByPassenger {
        return Raised(Forbidden);
      }
      outcome := ApplyCancellation(b, CancelledByPassenger, v);
    }

    /** The cancellation both sides share. */
    method ApplyCancellation(b: nat, target: BookingStatus, v: P.Provider) returns (outcome: Outcome)
      requires Wired() && db.Linked() && b < |db.bookings|
      modifies db`bookings, db`rides, db`payments, db`jobs
      ensures var result := Cancel(old(db.Rows()), b, target, v);
              && outcome == result.outcome && db.Rows() == result.db && db.jobs == old(db.jobs) + result.jobs
      ensures db.Linked()
    {
      var booking := db.bookings[b];
      if booking.status !in {Pending, Accepted} {
        return Raised(BadRequest);
      }
      if booking.status == Accepted {
        ReturnSeat(booking.ride);
      }
      payments.RefundPaymentForBooking(b, v);
      SetStatus(b, target);
      return Done;
    }

    method IssueBoardingOtp(user: nat, b: nat, otp: string, now: int, life: int) returns (outcome: Outcome)
      modifies db`bookings
      ensures Result(db.Rows(), [], outcome) == IssueOtp(old(db.Rows()), user, b, otp, now, life)
      ensures old(db.Valid()) ==> db.Valid()
    {
      if db.Valid() {
        TripRuns.StepCoherent(db.Rows(), TripRuns.DoIssueOtp(user, b, otp, now, life));
      }
      if b >= |db.bookings| {
        return Raised(NotFound);
      }
      var booking := db.bookings[b];
      if booking.passenger != user {
        return Raised(Forbidden);
      }
      if booking.status != Accepted || booking.boardedAt.Some? {
        return Raised(BadRequest);
      }
      db.bookings := db.bookings[b := db.bookings[b].(otpHash := Some((b, otp)))];
      db.bookings := db.bookings[b := db.bookings[b].(otpExpiresAt := Some(now + life))];
      return Done;
    }

    method VerifyBoardingOtp(user: nat, b: nat, otp: string, now: int) returns (outcome: Outcome)
      requires db.Linked()
      modifies db`bookings
      ensures Result(db.Rows(), [], outcome) == VerifyOtp(old(db.Rows()), user, b, otp, now)
      ensures old(db.Valid()) ==> db.Valid()
    {
      if db.Valid() {
        TripRuns.StepCoherent(db.Rows(), TripRuns.DoVerifyOtp(user, b, otp, now));
      }
      if b >= |db.bookings| {
        return Raised(NotFound);
      }
      var booking := db.bookings[b];
      if db.rides[booking.ride].driver != user {
        return Raised(Forbidden);
      }
      if booking.status != Accepted {
        return Raised(BadRequest);
      }
      if booking.boardedAt.Some? {
        return Done;
      }
      if booking.otpHash.None? || booking.otpExpiresAt.None? {
        return Raised(BadRequest);
      }
      if booking.otpExpiresAt.value <= now {
        return Raised(BadRequest);
      }
      if booking.otpHash.value != (b, otp) {
        return Raised(BadRequest);
      }
      db.bookings := db.bookings[b := db.bookings[b].(boardedAt := Some(now))];
      db.bookings := db.bookings[b := db.bookings[b].(otpHash := None)];
      db.bookings := db.bookings[b := db.bookings[b].(otpExpiresAt := None)];
      return Done;
    }
  }
}
