/**
 * What cancelling a whole ride does to the payments of its bookings, over runs of the system with its job queue:
 * app/services/ride.py makes no payment call there, and nothing makes up for it later.
 */
module RideCancellations {
  import opened Basics
  import opened Trips
  import opened RefundRetries
  import P = Payments
  import Runs = TripRuns
  import Settlement
  import TripHistory

  // ---------------------------------------------------------------- which bookings have refund retries

  ghost predicate SettledBooking(s: System, b: nat) {
    b < |s.db.bookings| && TripHistory.Settled(s.db.bookings[b].status)
  }

  /** The rows are coherent, and refund retries are queued or used up only for bookings that are over. */
  ghost predicate Sound(s: System) {
    && Runs.Coherent(s.db)
    && forall b: nat | Retries(s.queue, b) || b in s.givenUp :: SettledBooking(s, b)
  }

  lemma {:induction false} CaptureJobsOnly(db: Db, r: nat, ask: nat -> P.Provider, n: nat, b: nat)
    ensures P.RefundRetry(b) !in CaptureJobs(db, r, ask, n).0
  {
    if n == 0 {
    } else {
      CaptureJobsOnly(db, r, ask, n - 1, b);
    }
  }

  /** The request cancels booking b through `update_status`. */
  ghost predicate CancelsThroughStatus(s: System, a: Runs.Action, b: nat) {
    && a.DoUpdateStatus? && a.b == b && a.status in {CancelledByDriver, CancelledByPassenger}
    && Runs.Perform(s.db, a).outcome == Done
  }

  /** Only such a request queues a refund retry. */
  lemma QueuesRefund(s: System, a: Runs.Action, b: nat)
    requires Possible(s, Do(a)) && P.RefundRetry(b) in Runs.Perform(s.db, a).jobs
    ensures CancelsThroughStatus(s, a, b)
  {
    if a.DoCompleteRide? {
      CaptureJobsOnly(s.db, a.r, a.ask, |s.db.bookings|, b);
    }
  }

  lemma StatusSettles(s: System, a: Runs.Action, b: nat)
    requires CancelsThroughStatus(s, a, b)
    ensures SettledBooking(Next(s, Do(a)), b) && !SettledBooking(s, b)
  {
  }

  /** A booking that is over stays so. */
  lemma StaysSettled(s: System, a: Runs.Action, b: nat)
    requires Runs.Coherent(s.db) && SettledBooking(s, b)
    ensures SettledBooking(Next(s, Do(a)), b)
  {
    TripHistory.StepEvolves(Runs.World(s.db, Runs.CapacityOf(s.db)), a);
    assert TripHistory.BookingEvolves(s.db.bookings[b], Next(s, Do(a)).db.bookings[b]);
  }

  lemma DoSound(s: System, a: Runs.Action)
    requires Sound(s) && Possible(s, Do(a))
    ensures Sound(Next(s, Do(a)))
  {
    Runs.StepCoherent(s.db, a);
    var next, jobs := Next(s, Do(a)), Runs.Perform(s.db, a).jobs;
    forall b: nat | Retries(next.queue, b) || b in next.givenUp ensures SettledBooking(next, b) {
      RetriesInPart(s.queue, Queued(jobs), b);
      if Retries(s.queue, b) || b in s.givenUp {
        StaysSettled(s, a, b);
      } else {
        var i :| 0 <= i < |Queued(jobs)| && Queued(jobs)[i].job == P.RefundRetry(b);
        assert jobs[i] == P.RefundRetry(b);
        QueuesRefund(s, a, b);
        StatusSettles(s, a, b);
      }
    }
  }

  lemma WorkSound(s: System, v: P.Provider)
    requires Sound(s)
    ensures Sound(Next(s, Work(v)))
  {
    if s.queue != [] {
      forall b: nat | Retries(Next(s, Work(v)).queue, b) || b in Next(s, Work(v)).givenUp
        ensures SettledBooking(s, b)
      {
        WorkQueue(s, v, b);
        RetriesAtHead(s.queue, b);
      }
    }
  }

  /** In every state a possible run reaches, refund retries belong to bookings that are over. */
  lemma {:induction false} SoundRun(s: System, run: seq<Event>)
    requires Sound(s) && PossibleRun(s, run)
    ensures Sound(After(s, run))
    decreases run
  {
    if run == [] {
    } else {
      match run[0] {
        case Do(a) => DoSound(s, a);
        case Work(v) => WorkSound(s, v);
      }
      SoundRun(Next(s, run[0]), run[1..]);
    }
  }

  lemma {:induction false} SoundFromEmpty(run: seq<Event>)
    requires PossibleRun(EMPTY_SYSTEM, run)
    ensures Sound(After(EMPTY_SYSTEM, run))
  {
    SoundRun(EMPTY_SYSTEM, run);
  }

  // ---------------------------------------------------------------- the one cancellation that forgets refunds

  /** The request turns booking b, open until now, into a cancelled one. */
  ghost predicate Cancels(s: System, a: Runs.Action, b: nat) {
    && b < |s.db.bookings| && s.db.bookings[b].status in {Pending, Accepted}
    && b < |Runs.Perform(s.db, a).db.bookings|
    && Runs.Perform(s.db, a).db.bookings[b].status in {CancelledByDriver, CancelledByPassenger}
  }

  lemma CancelledHow(s: System, a: Runs.Action, b: nat)
    requires Cancels(s, a, b)
    ensures CancelsThroughStatus(s, a, b) || (a.DoCancelRide? && Runs.Perform(s.db, a).outcome == Done)
  {
  }

  /**
   * Whenever an open booking with an authorized or captured payment gets cancelled, in any state a possible run
   * reaches, the payment is then refunded, or a refund retry of it is queued, exactly when it was not the whole ride
   * that was cancelled.
   */
  lemma CoveredUnlessRideCancelled(s: System, a: Runs.Action, b: nat)
    requires Sound(s) && Cancels(s, a, b)
    requires b in s.db.ledger.payments && P.Refundable(s.db.ledger.payments[b])
    ensures Covered(Next(s, Do(a)), b) <==> !a.DoCancelRide?
  {
    CancelledHow(s, a, b);
    if a.DoCancelRide? {
      RetriesInPart(s.queue, Queued([]), b);
    } else {
      CancellationCovers(s, Do(a), b);
    }
  }

  // ---------------------------------------------------------------- nothing makes up for it

  /** The event asks the provider for a refund of payment b. */
  ghost predicate AsksRefund(s: System, e: Event, b: nat) {
    match e
    case Do(a) =>
      exists i :: 0 <= i < |Settlement.Operations(s.db, a)| && IsRefundOf(Settlement.Operations(s.db, a)[i], b)
    case Work(v) => s.queue != [] && IsRefundOf(Handler(s.db, s.queue[0].job, v), b)
  }

  predicate IsRefundOf(op: P.Action, b: nat) {
    (op.Refund? || op.RetryRefund?) && op.id == b
  }

  ghost predicate NeverAsked(s: System, run: seq<Event>, b: nat)
    decreases run
  {
    run == [] || (!AsksRefund(s, run[0], b) && NeverAsked(Next(s, run[0]), run[1..], b))
  }

  lemma NotAsked(s: System, e: Event, b: nat)
    requires Sound(s) && Possible(s, e) && SettledBooking(s, b) && !Retries(s.queue, b)
    ensures !AsksRefund(s, e, b) && SettledBooking(Next(s, e), b) && !Retries(Next(s, e).queue, b)
  {
    match e
    case Do(a) =>
      StaysSettled(s, a, b);
      if a.DoCompleteRide? {
        CapturesOnly(s.db, a.r, a.ask, |s.db.bookings|);
      }
      var jobs := Runs.Perform(s.db, a).jobs;
      RetriesInPart(s.queue, Queued(jobs), b);
      if Retries(Queued(jobs), b) {
        var i :| 0 <= i < |Queued(jobs)| && Queued(jobs)[i].job == P.RefundRetry(b);
        assert jobs[i] == P.RefundRetry(b);
        QueuesRefund(s, a, b);
        StatusSettles(s, a, b);
      }
    case Work(v) =>
      if s.queue != [] {
        WorkQueue(s, v, b);
        RetriesAtHead(s.queue, b);
      }
  }

  lemma {:induction false} NeverAskedAgain(s: System, run: seq<Event>, b: nat)
    requires Sound(s) && PossibleRun(s, run) && SettledBooking(s, b) && !Retries(s.queue, b)
    ensures NeverAsked(s, run, b)
    decreases run
  {
    if run == [] {
    } else {
      NotAsked(s, run[0], b);
      match run[0] {
        case Do(a) => DoSound(s, a);
        case Work(v) => WorkSound(s, v);
      }
      NeverAskedAgain(Next(s, run[0]), run[1..], b);
    }
  }

  /**
   * From any state a possible run reaches: once a ride is cancelled, no event of any further possible run asks the
   * provider to refund a booking that was open until then.
   */
  lemma {:induction false} CancelledRideIsNeverRefunded(s: System, a: Runs.Action, run: seq<Event>, b: nat)
    requires Sound(s) && a.DoCancelRide? && Cancels(s, a, b)
    requires PossibleRun(Next(s, Do(a)), run)
    ensures NeverAsked(Next(s, Do(a)), run, b)
  {
    assert Possible(s, Do(a));
    DoSound(s, a);
    RetriesInPart(s.queue, Queued([]), b);
    assert !SettledBooking(s, b);
    NeverAskedAgain(Next(s, Do(a)), run, b);
  }

  // ---------------------------------------------------------------- a run that does it

  const CANCEL_RIDE := Do(Runs.DoCancelRide(DRIVER, 0))

  /**
   * The passenger has paid and the driver cancels the ride: in this possible run from the empty system the payment
   * stays captured, no job is queued and no retry used up; and no continuation ever asks for the refund.
   */
  lemma {:induction false} PaidRideCancelled(run: seq<Event>)
    requires PossibleRun(After(EMPTY_SYSTEM, PAID + [CANCEL_RIDE]), run)
    ensures PossibleRun(EMPTY_SYSTEM, PAID + [CANCEL_RIDE])
    ensures var s := After(EMPTY_SYSTEM, PAID + [CANCEL_RIDE]);
            && s.db.bookings == [NewBooking(0, 2, CancelledByDriver)]
            && s.db.ledger.payments == map[0 := P.Payment(2, P.Mock, "order", CHARGE, Some("pay"), P.Captured, None)]
            && s.queue == [] && !Covered(s, 0)
            && NeverAsked(s, run, 0)
  {
    var paid := StateWith(BookingStatus.Pending, P.Captured, None, []);
    PaidState();
    AfterCons(paid, CANCEL_RIDE, []);
    assert [CANCEL_RIDE] + [] == [CANCEL_RIDE];
    AfterAppend(EMPTY_SYSTEM, PAID, [CANCEL_RIDE]);
    PossibleAppend(EMPTY_SYSTEM, PAID, [CANCEL_RIDE]);
    RideCancelledState();
    CancelledRideIsNeverRefunded(paid, CANCEL_RIDE.action, run, 0);
  }

  lemma RideCancelledState()
    ensures var paid := StateWith(BookingStatus.Pending, P.Captured, None, []);
            && Sound(paid) && Cancels(paid, CANCEL_RIDE.action, 0)
            && Next(paid, CANCEL_RIDE).db.bookings == [NewBooking(0, 2, CancelledByDriver)]
            && Next(paid, CANCEL_RIDE).db.ledger == paid.db.ledger
            && Next(paid, CANCEL_RIDE).queue == []
            && !Covered(Next(paid, CANCEL_RIDE), 0)
  {
    assert Queued([]) == [];
  }
}
