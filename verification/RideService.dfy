/** The ride operations of app/services/ride.py, on the session's tables. */
module RideService {
  import opened Basics
  import opened Database
  import opened Trips
  import P = Payments
  import PaymentService
  import Settlement
  import TripRuns

  class Service {
    const db: Session
    const payments: PaymentService.Service

    constructor (db: Session)
      ensures this.db == db && Wired()
    {
      this.db := db;
      this.payments := new PaymentService.Service(db);
    }

    ghost predicate Wired() {
      payments.db == db
    }

    method CreateRide(user: User, seats: int, departure: int, priceCents: int) returns (outcome: Outcome)
      modifies db`rides
      ensures Result(db.Rows(), [], outcome) == Trips.CreateRide(old(db.Rows()), user, seats, departure, priceCents)
      ensures old(db.Valid()) && seats >= 1 ==> db.Valid()
    {
      if db.Valid() && seats >= 1 {
        TripRuns.StepCoherent(db.Rows(), TripRuns.DoCreateRide(user, seats, departure, priceCents));
      }
      if user.role != Driver {
        return Raised(Forbidden);
      }
      if !user.verified {
        return Raised(Forbidden);
      }
      db.rides := db.rides + [Ride(user.id, seats, Scheduled, true, departure, priceCents)];
      return Done;
    }

    method UpdateRide(user: User, r: nat, seats: int, departure: int, priceCents: int) returns (outcome: Outcome)
      modifies db`rides
      ensures Result(db.Rows(), [], outcome) == Trips.UpdateRide(old(db.Rows()), user, r, seats, departure, priceCents)
      ensures old(db.Valid()) && seats >= 0 ==> db.Valid()
    {
      if db.Valid() && seats >= 0 {
        TripRuns.StepCoherent(db.Rows(), TripRuns.DoUpdateRide(user, r, seats, departure, priceCents));
      }
      if user.role != Driver {
        return Raised(Forbidden);
      }
      if r >= |db.rides| {
        return Raised(NotFound);
      }
      if db.rides[r].driver != user.id {
        return Raised(Forbidden);
      }
      if db.rides[r].status in {RideCancelled, RideCompleted} {
        return Raised(BadRequest);
      }
      var accepted := CountAccepted(r);
      if seats < accepted {
        return Raised(BadRequest);
      }
      var ride := db.rides[r];
      ride := ride.(departure := departure);
      ride := ride.(seats := seats);
      ride := ride.(priceCents := priceCents);
      ride := ride.(status := if seats == 0 then Full else Scheduled);
      ride := ride.(active := ride.status == Scheduled);
      db.rides := db.rides[r := ride];
      return Done;
    }

    method CountAccepted(r: nat) returns (accepted: nat)
      ensures accepted == Count(db.bookings, r, {Accepted})
    {
      accepted := 0;
      for i := 0 to |db.bookings|
        invariant accepted == Count(db.bookings[..i], r, {Accepted})
      {
        assert db.bookings[..i + 1][..i] == db.bookings[..i];
        if db.bookings[i].ride == r && db.bookings[i].status == Accepted {
          accepted := accepted + 1;
        }
      }
      assert db.bookings[..|db.bookings|] == db.bookings;
    }

    method CancelRide(user: User, r: nat) returns (outcome: Outcome)
      modifies db`rides, db`bookings
      ensures Result(db.Rows(), [], outcome) == Trips.CancelRide(old(db.Rows()), user, r)
      ensures old(db.Valid()) ==> db.Valid()
    {
      if db.Valid() {
        TripRuns.StepCoherent(db.Rows(), TripRuns.DoCancelRide(user, r));
      }
      if user.role != Driver {
        return Raised(Forbidden);
      }
      if r >= |db.rides| {
        return Raised(NotFound);
      }
      if db.rides[r].driver != user.id {
        return Raised(Forbidden);
      }
      if db.rides[r].status == RideCompleted {
        return Raised(BadRequest);
      }
      if db.rides[r].status == RideCancelled {
        return Raised(BadRequest);
      }
      db.rides := db.rides[r := db.rides[r].(status := RideCancelled)];
      db.rides := db.rides[r := db.rides[r].(active := false)];
      CancelBookings(r);
      return Done;
    }

    /** The loop over the ride's bookings. */
    method CancelBookings(r: nat)
      modifies db`bookings
      ensures db.bookings == Moved(old(db.bookings), r, {Pending, Accepted}, CancelledByDriver)
    {
      for i := 0 to |db.bookings|
        invariant |db.bookings| == |old(db.bookings)|
        invariant forall k | 0 <= k < i ::
            db.bookings[k] == MovedOne(old(db.bookings)[k], r, {Pending, Accepted}, CancelledByDriver)
        invariant forall k | i <= k < |db.bookings| :: db.bookings[k] == old(db.bookings)[k]
      {
        if db.bookings[i].ride == r && db.bookings[i].status in {Pending, Accepted} {
          db.bookings := db.bookings[i := db.bookings[i].(status := CancelledByDriver)];
        }
      }
      assert db.bookings == Moved(old(db.bookings), r, {Pending, Accepted}, CancelledByDriver);
    }

    /** On a payment left uncaptured the tables are rolled back; the retry jobs already queued stay. */
    method CompleteRide(user: User, r: nat, ask: nat -> P.Provider) returns (outcome: Outcome)
      requires Wired()
      modifies db`rides, db`bookings, db`payments, db`jobs
      ensures var result := Trips.CompleteRide(old(db.Rows()), user, r, ask);
              && outcome == result.outcome && db.Rows() == result.db && db.jobs == old(db.jobs) + result.jobs
      ensures if outcome == Done then Settlement.FullyCompleted(old(db.Rows()), db.Rows(), r)
              else db.Rows() == old(db.Rows())
      ensures old(db.Valid()) ==> db.Valid()
    {
      Settlement.CompleteRideAllOrNothing(db.Rows(), user, r, ask);
      if db.Valid() {
        TripRuns.StepCoherent(db.Rows(), TripRuns.DoCompleteRide(user, r, ask));
      }
      if user.role != Driver {
        return Raised(Forbidden);
      }
      if r >= |db.rides| {
        return Raised(NotFound);
      }
      if db.rides[r].driver != user.id {
        return Raised(Forbidden);
      }
      if db.rides[r].status in {RideCancelled, RideCompleted} {
        return Raised(BadRequest);
      }
      if !AllBoarded(db.Rows(), r) {
        return Raised(BadRequest);
      }
      outcome := FinishRide(r, ask);
    }

    /** Captures and completes the bookings, then the ride. */
    method FinishRide(r: nat, ask: nat -> P.Provider) returns (outcome: Outcome)
      requires Wired() && r < |db.rides|
      modifies db`rides, db`bookings, db`payments, db`jobs
      ensures var before := old(db.Rows());
              var (jobs, captured) := CaptureJobs(before, r, ask, |before.bookings|);
              && outcome == (if captured then Done else Raised(Conflict))
              && db.jobs == old(db.jobs) + jobs
              && db.Rows() == if captured then RideFinished(before, r, ask) else before
    {
      ghost var before := db.Rows();
      var savedBookings, savedPayments := db.bookings, db.payments;
      var settled := SettleBookings(r, ask);
      if !settled {
        db.bookings, db.payments := savedBookings, savedPayments;
        return Raised(Conflict);
      }
      SettledAll(before, r, ask, db.Rows());
      db.rides := db.rides[r := db.rides[r].(status := RideCompleted)];
      db.rides := db.rides[r := db.rides[r].(active := false)];
      return Done;
    }

    /** The loop over the accepted bookings; false when it stops at a payment that is not captured. */
    method SettleBookings(r: nat, ask: nat -> P.Provider) returns (settled: bool)
      requires Wired()
      modifies db`bookings, db`payments, db`jobs
      ensures var before := old(db.Rows());
              && settled == CaptureJobs(before, r, ask, |before.bookings|).1
              && db.jobs == old(db.jobs) + CaptureJobs(before, r, ask, |before.bookings|).0
              && (settled ==> Settled(before, r, ask, |before.bookings|, db.Rows()))
    {
      ghost var before, rows, jobs0 := db.Rows(), db.Rows(), db.jobs;
      for i := 0 to |db.bookings|
        invariant db.Rows() == rows && |rows.bookings| == |before.bookings|
        invariant Settled(before, r, ask, i, rows) && JobsInProgress(before, jobs0, r, ask, i, db.jobs)
      {
        ghost var jobs := db.jobs;
        var going := SettleBooking(r, i, ask);
        if !going {
          JobsStop(before, jobs0, r, ask, i, rows, jobs);
          return false;
        }
        JobsGoOn(before, jobs0, r, ask, i, rows, jobs);
        SettledStep(before, r, ask, i, rows);
        rows := SettleOne(rows, r, ask, i);
      }
      return true;
    }

    /** One turn of the loop: an accepted booking is captured, and completed unless that leaves it uncaptured. */
    method SettleBooking(r: nat, i: nat, ask: nat -> P.Provider) returns (going: bool)
      requires Wired() && i < |db.bookings|
      modifies db`bookings, db`payments, db`jobs
      ensures |db.bookings| == |old(db.bookings)|
      ensures going == Settles(old(db.Rows()), r, ask, i)
      ensures going ==> db.Rows() == SettleOne(old(db.Rows()), r, ask, i)
      ensures db.jobs == old(db.jobs) + SettleJobs(old(db.Rows()), r, ask, i)
    {
      if db.bookings[i].ride == r && db.bookings[i].status == Accepted {
        payments.CapturePaymentForBooking(i, ask(i));
        if i in db.payments && db.payments[i].status != P.Captured {
          return false;
        }
        db.bookings := db.bookings[i := db.bookings[i].(status := Completed)];
      }
      return true;
    }
  }

  /** The rows once the ride and all its accepted bookings are completed. */
  function RideFinished(before: Db, r: nat, ask: nat -> P.Provider): Db
    requires r < |before.rides|
  {
    before.(rides := before.rides[r := before.rides[r].(status := RideCompleted, active := false)],
            bookings := Moved(before.bookings, r, {Accepted}, Completed),
            ledger := P.After(before.ledger, Captured(before, r, ask, |before.bookings|)))
  }

  /** The rows once the bookings below n have been worked through. */
  ghost predicate Settled(before: Db, r: nat, ask: nat -> P.Provider, n: nat, rows: Db) {
    && |rows.bookings| == |before.bookings|
    && rows.rides == before.rides && rows.requests == before.requests
    && (forall k | 0 <= k < |before.bookings| ::
          rows.bookings[k]
          == if k < n then MovedOne(before.bookings[k], r, {Accepted}, Completed) else before.bookings[k])
    && rows.ledger == P.After(before.ledger, Captured(before, r, ask, n))
  }

  lemma SettledAll(before: Db, r: nat, ask: nat -> P.Provider, rows: Db)
    requires Settled(before, r, ask, |before.bookings|, rows)
    ensures rows == before.(bookings := Moved(before.bookings, r, {Accepted}, Completed),
                            ledger := P.After(before.ledger, Captured(before, r, ask, |before.bookings|)))
  {
    assert rows.bookings == Moved(before.bookings, r, {Accepted}, Completed);
  }

  /** The rows after one more booking has been captured and completed. */
  function SettleOne(rows: Db, r: nat, ask: nat -> P.Provider, i: nat): Db {
    if !ToComplete(rows, r, i) then rows
    else
      rows.(ledger := P.Step(rows.ledger, P.Capture(i, ask(i))),
            bookings := rows.bookings[i := rows.bookings[i].(status := Completed)])
  }

  /** The jobs of that capture. */
  function SettleJobs(rows: Db, r: nat, ask: nat -> P.Provider, i: nat): seq<P.Job> {
    if ToComplete(rows, r, i) then P.JobsOf(rows.ledger, P.Capture(i, ask(i))) else []
  }

  /** Whether the loop goes on after booking i. */
  predicate Settles(rows: Db, r: nat, ask: nat -> P.Provider, i: nat) {
    ToComplete(rows, r, i) ==> Captures(rows, i, ask)
  }

  lemma SettledStep(before: Db, r: nat, ask: nat -> P.Provider, i: nat, rows: Db)
    requires i < |before.bookings| && Settled(before, r, ask, i, rows)
    ensures Settled(before, r, ask, i + 1, SettleOne(rows, r, ask, i))
  {
    Settlement.AfterCaptured(before, r, ask, i);
  }

  lemma JobsStep(before: Db, r: nat, ask: nat -> P.Provider, i: nat, rows: Db)
    requires i < |before.bookings| && Settled(before, r, ask, i, rows) && CaptureJobs(before, r, ask, i).1
    ensures CaptureJobs(before, r, ask, i + 1).0 == CaptureJobs(before, r, ask, i).0 + SettleJobs(rows, r, ask, i)
    ensures CaptureJobs(before, r, ask, i + 1).1 == Settles(rows, r, ask, i)
  {
    var (jobs, _) := CaptureJobs(before, r, ask, i);
    assert jobs + [] == jobs;
    Settlement.CapturedRows(before, r, ask, i);
    assert i in before.ledger.payments ==>
        rows.ledger.payments[i] == Settlement.PaymentAfter(before, r, ask, i, i) == before.ledger.payments[i];
  }

  /** The queue after the loop has worked through the bookings below n. */
  ghost predicate JobsInProgress(
      before: Db, jobs0: seq<P.Job>, r: nat, ask: nat -> P.Provider, n: nat, jobs: seq<P.Job>) {
    CaptureJobs(before, r, ask, n).1 && jobs == jobs0 + CaptureJobs(before, r, ask, n).0
  }

  lemma JobsAssociate(a: seq<P.Job>, b: seq<P.Job>, c: seq<P.Job>)
    ensures a + b + c == a + (b + c)
  {
  }

  lemma JobsGoOn(
      before: Db, jobs0: seq<P.Job>, r: nat, ask: nat -> P.Provider, i: nat, rows: Db, jobs: seq<P.Job>)
    requires i < |before.bookings| && Settled(before, r, ask, i, rows)
    requires JobsInProgress(before, jobs0, r, ask, i, jobs) && Settles(rows, r, ask, i)
    ensures JobsInProgress(before, jobs0, r, ask, i + 1, jobs + SettleJobs(rows, r, ask, i))
  {
    var done, more := CaptureJobs(before, r, ask, i).0, SettleJobs(rows, r, ask, i);
    JobsStep(before, r, ask, i, rows);
    JobsAssociate(jobs0, done, more);
  }

  lemma JobsStop(
      before: Db, jobs0: seq<P.Job>, r: nat, ask: nat -> P.Provider, i: nat, rows: Db, jobs: seq<P.Job>)
    requires i < |before.bookings| && Settled(before, r, ask, i, rows)
    requires JobsInProgress(before, jobs0, r, ask, i, jobs) && !Settles(rows, r, ask, i)
    ensures !CaptureJobs(before, r, ask, |before.bookings|).1
    ensures jobs + SettleJobs(rows, r, ask, i) == jobs0 + CaptureJobs(before, r, ask, |before.bookings|).0
  {
    var done, more := CaptureJobs(before, r, ask, i).0, SettleJobs(rows, r, ask, i);
    JobsStep(before, r, ask, i, rows);
    JobsAssociate(jobs0, done, more);
    StoppedAt(before, r, ask, i, |before.bookings|);
  }

  /** Once a capture stopped the loop, nothing more is queued. */
  lemma {:induction false} StoppedAt(db: Db, r: nat, ask: nat -> P.Provider, i: nat, n: nat)
    requires i < n && !CaptureJobs(db, r, ask, i + 1).1
    ensures CaptureJobs(db, r, ask, n) == CaptureJobs(db, r, ask, i + 1)
  {
    if i + 1 == n {
    } else {
      StoppedAt(db, r, ask, i, n - 1);
    }
  }
}
