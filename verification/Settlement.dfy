/** Payments inside trips: completing a ride is all or nothing, and the payments theorems hold over whole trips. */
module Settlement {
  import opened Basics
  import opened Trips
  import opened TripRuns
  import P = Payments

  // ---------------------------------------------------------------- complete_ride

  /** What the completion of ride r needs of each booking it works through. */
  ghost predicate ReadyBelow(db: Db, r: nat, ask: nat -> P.Provider, n: nat) {
    forall i: nat | i < n && ToComplete(db, r, i) :: Captures(db, i, ask)
  }

  lemma {:induction false} CaptureJobsDone(db: Db, r: nat, ask: nat -> P.Provider, n: nat)
    ensures CaptureJobs(db, r, ask, n).1 <==> ReadyBelow(db, r, ask, n)
  {
    if n == 0 {
    } else {
      CaptureJobsDone(db, r, ask, n - 1);
    }
  }

  function PaymentAfter(db: Db, r: nat, ask: nat -> P.Provider, n: nat, i: nat): P.Payment
    requires i in db.ledger.payments
  {
    if i < n && ToComplete(db, r, i) then P.CapturedForBooking(db.ledger.payments[i], ask(i)) else db.ledger.payments[i]
  }

  ghost predicate CapturedBelow(db: Db, after: P.Table, r: nat, ask: nat -> P.Provider, n: nat) {
    && after.events == db.ledger.events
    && after.payments.Keys == db.ledger.payments.Keys
    && forall i | i in db.ledger.payments :: after.payments[i] == PaymentAfter(db, r, ask, n, i)
  }

  lemma CapturedOneMore(db: Db, after: P.Table, r: nat, ask: nat -> P.Provider, n: nat)
    requires CapturedBelow(db, after, r, ask, n)
    ensures ToComplete(db, r, n) ==> CapturedBelow(db, P.Step(after, P.Capture(n, ask(n))), r, ask, n + 1)
    ensures !ToComplete(db, r, n) ==> CapturedBelow(db, after, r, ask, n + 1)
  {
    if n in db.ledger.payments {
      assert after.payments[n] == PaymentAfter(db, r, ask, n, n) == db.ledger.payments[n];
    }
  }

  /** The captures below n + 1 are those below n, followed by the capture of booking n if it is worked through. */
  lemma AfterCaptured(db: Db, r: nat, ask: nat -> P.Provider, n: nat)
    ensures P.After(db.ledger, Captured(db, r, ask, n + 1))
            == var table := P.After(db.ledger, Captured(db, r, ask, n));
               if ToComplete(db, r, n) then P.Step(table, P.Capture(n, ask(n))) else table
  {
    if ToComplete(db, r, n) {
      P.AfterOneMore(db.ledger, Captured(db, r, ask, n), P.Capture(n, ask(n)));
    } else {
      assert Captured(db, r, ask, n + 1) == Captured(db, r, ask, n);
    }
  }

  /** The committed captures change exactly the payments of the bookings worked through. */
  lemma {:induction false} CapturedRows(db: Db, r: nat, ask: nat -> P.Provider, n: nat)
    ensures CapturedBelow(db, P.After(db.ledger, Captured(db, r, ask, n)), r, ask, n)
  {
    if n == 0 {
    } else {
      CapturedRows(db, r, ask, n - 1);
      AfterCaptured(db, r, ask, n - 1);
      CapturedOneMore(db, P.After(db.ledger, Captured(db, r, ask, n - 1)), r, ask, n - 1);
    }
  }

  /** The state in which every accepted booking of the ride has been completed, boarded and paid. */
  ghost predicate FullyCompleted(before: Db, after: Db, r: nat) {
    && |after.rides| == |before.rides| && |after.bookings| == |before.bookings|
    && after.requests == before.requests
    && after.ledger.payments.Keys == before.ledger.payments.Keys && after.ledger.events == before.ledger.events
    && (forall k: nat | k < |before.rides| ::
          after.rides[k]
          == if k == r then before.rides[r].(status := RideCompleted, active := false) else before.rides[k])
    && (forall i: nat | i < |before.bookings| ::
          if ToComplete(before, r, i) then
            && after.bookings[i] == before.bookings[i].(status := Completed)
            && before.bookings[i].boardedAt.Some?
            && (i in after.ledger.payments ==> after.ledger.payments[i].status == P.Captured)
          else after.bookings[i] == before.bookings[i])
    && (forall i | i in before.ledger.payments && !ToComplete(before, r, i) ::
          after.ledger.payments[i] == before.ledger.payments[i])
  }

  /**
   * For any number of bookings and any provider answers, completing a ride either completes every accepted booking,
   * each boarded and each without a payment or with a captured one, or changes no row at all; and it succeeds
   * exactly when the ride's own driver asks, the ride is not finished, all are boarded and all captures settle.
   */
  lemma CompleteRideAllOrNothing(db: Db, user: User, r: nat, ask: nat -> P.Provider)
    ensures var result := CompleteRide(db, user, r, ask);
            && (result.outcome == Done ==> FullyCompleted(db, result.db, r))
            && (result.outcome != Done ==> result.db == db)
            && (result.outcome == Done <==>
                  && user.role == Driver && r < |db.rides| && db.rides[r].driver == user.id && !Finished(db.rides[r])
                  && AllBoarded(db, r) && ReadyBelow(db, r, ask, |db.bookings|))
  {
    CaptureJobsDone(db, r, ask, |db.bookings|);
    CapturedRows(db, r, ask, |db.bookings|);
    var after := P.After(db.ledger, Captured(db, r, ask, |db.bookings|));
    assert forall i | i in db.ledger.payments :: after.payments[i] == PaymentAfter(db, r, ask, |db.bookings|, i);
  }

  // ---------------------------------------------------------------- the payment operations of a trip

  /** The payment operations a step commits. */
  function Operations(db: Db, a: Action): seq<P.Action> {
    if Perform(db, a).outcome != Done then []
    else
      match a
      case DoPayment(p) => [p]
      case DoUpdateStatus(_, b, Accepted, v) => [P.Capture(b, v)]
      case DoUpdateStatus(_, b, CancelledByDriver, v) => [P.Refund(b, v)]
      case DoUpdateStatus(_, b, CancelledByPassenger, v) => [P.Refund(b, v)]
      case DoCompleteRide(_, r, ask) => Captured(db, r, ask, |db.bookings|)
      case _ => []
  }

  lemma StepIsPaymentRun(db: Db, a: Action)
    ensures P.After(db.ledger, Operations(db, a)) == Perform(db, a).db.ledger
  {
  }

  function AllOperations(w: World, run: seq<Action>): seq<P.Action> {
    if run == [] then []
    else AllOperations(w, run[..|run| - 1]) + Operations(After(w, run[..|run| - 1]).db, run[|run| - 1])
  }

  /** Seen from the payments table, a run of the whole system is a run of payment operations. */
  lemma {:induction false} RunIsPaymentRun(w: World, run: seq<Action>)
    ensures P.After(w.db.ledger, AllOperations(w, run)) == After(w, run).db.ledger
  {
    if run == [] {
    } else {
      var front := run[..|run| - 1];
      RunIsPaymentRun(w, front);
      StepIsPaymentRun(After(w, front).db, run[|run| - 1]);
      P.AfterAppend(w.db.ledger, AllOperations(w, front), Operations(After(w, front).db, run[|run| - 1]));
    }
  }

  /**
   * Over any run of the whole system: a refunded, failed or cancelled payment keeps its status, and the provider
   * grants at most one refund of each payment, after which the payment is refunded.
   */
  lemma {:induction false} PaymentsOverTrips(w: World, run: seq<Action>, id: nat)
    ensures id in w.db.ledger.payments && w.db.ledger.payments[id].status in P.TERMINAL ==>
              id in After(w, run).db.ledger.payments
              && After(w, run).db.ledger.payments[id].status == w.db.ledger.payments[id].status
    ensures P.Refunds(w.db.ledger, AllOperations(w, run), id) <= 1
    ensures P.Refunds(w.db.ledger, AllOperations(w, run), id) == 1 ==>
              id in After(w, run).db.ledger.payments && After(w, run).db.ledger.payments[id].status == P.Refunded
  {
    RunIsPaymentRun(w, run);
    P.RefundAtMostOnce(w.db.ledger, AllOperations(w, run), id);
    if id in w.db.ledger.payments && w.db.ledger.payments[id].status in P.TERMINAL {
      P.TerminalIsFinal(w.db.ledger, AllOperations(w, run), id);
    }
  }

  /** After a booking with an authorized or captured payment is cancelled, it is refunded or a retry is queued. */
  lemma CancelRefundsOrRetries(db: Db, user: nat, b: nat, status: BookingStatus, v: P.Provider)
    requires status in {CancelledByDriver, CancelledByPassenger}
    requires b in db.ledger.payments && P.Refundable(db.ledger.payments[b])
    requires UpdateStatus(db, user, b, status, v).outcome == Done
    ensures var result := UpdateStatus(db, user, b, status, v);
            && b in result.db.ledger.payments
            && (result.db.ledger.payments[b].status == P.Refunded <==> P.RefundRetry(b) !in result.jobs)
  {
  }

  /** After a booking with an authorized payment is accepted, it is captured or a capture retry is queued. */
  lemma AcceptCapturesOrRetries(db: Db, user: nat, b: nat, v: P.Provider)
    requires b in db.ledger.payments && P.Capturable(db.ledger.payments[b])
    requires UpdateStatus(db, user, b, Accepted, v).outcome == Done
    ensures var result := UpdateStatus(db, user, b, Accepted, v);
            && b in result.db.ledger.payments
            && (P.CaptureRetry(b) !in result.jobs ==> result.db.ledger.payments[b].status == P.Captured)
            && (P.CaptureRetry(b) in result.jobs <==> !P.Worked(db.ledger.payments[b], v.lookup, v.capture))
  {
  }

  /** Cancelling a ride makes no payment call, so a captured payment of it stays captured. */
  lemma CancelRideKeepsPayments(db: Db, user: User, r: nat)
    ensures CancelRide(db, user, r).db.ledger == db.ledger && CancelRide(db, user, r).jobs == []
  {
  }
}
