/**
 * The payment operations of app/services/payment.py, on the session's tables. None of them touches rides or bookings,
 * so all keep `Session.Valid`, which reads only these.
 */
module PaymentService {
  import opened Basics
  import opened Database
  import opened Payments
  import Money
  import T = Trips

  /** What a provider returns when a payment is created. */
  datatype Intent = Intent(gateway: Gateway, orderId: string, reference: Option<string>)

  /** What is stored and asked of the provider for a seat of the given price. */
  function ChargeFor(cents: int, currency: string): Charge {
    Charge(cents, Money.ToMinorUnits(cents as real / 100.0, Money.UpperCase(currency)), Money.UpperCase(currency))
  }

  /** In a two-decimal currency the minor units are the cents of the price; in yen they are at most half a yen off. */
  lemma ChargeIsThePrice(cents: int, currency: string)
    ensures var charge := ChargeFor(cents, currency);
            && charge.cents == cents && charge.currency == Money.UpperCase(currency)
            && (!Money.IsYen(currency) ==> charge.minor == cents)
            && (Money.IsYen(currency) ==> -50 <= 100 * charge.minor - cents <= 50)
  {
    if !Money.IsYen(currency) {
      Money.TwoDecimalsExact(cents, Money.UpperCase(currency));
    } else {
      Money.MinorUnits(cents as real / 100.0, 0.0, Money.UpperCase(currency));
    }
  }

  class Service {
    const db: Session

    constructor (db: Session)
      ensures this.db == db
    {
      this.db := db;
    }

    function Ledger(): Table
      reads this, db
    {
      Table(db.payments, db.events)
    }

    /** `ask(charge)` is what the provider returns for a charge; it is asked for the price of the booking's ride. */
    method CreatePayment(user: nat, b: nat, currency: string, ask: Charge -> Answer<Intent>)
      returns (outcome: Outcome)
      requires db.Linked()
      modifies db`payments
      ensures outcome ==
              if b >= |db.bookings| then Raised(NotFound)
              else if db.bookings[b].passenger != user then Raised(Forbidden)
              else if db.bookings[b].status !in {T.Pending, T.Accepted} then Raised(BadRequest)
              else if b in old(db.payments) then Raised(Conflict)
              else if ask(ChargeFor(db.rides[db.bookings[b].ride].priceCents, currency)).Down? then Raised(BadGateway)
              else Done
      ensures Ledger() ==
              if outcome != Done then old(Ledger())
              else
                var charge := ChargeFor(db.rides[db.bookings[b].ride].priceCents, currency);
                var intent := ask(charge).value;
                Step(old(Ledger()), Create(b, user, intent.gateway, intent.orderId, charge, intent.reference))
    {
      if b >= |db.bookings| {
        return Raised(NotFound);
      }
      if db.bookings[b].passenger != user {
        return Raised(Forbidden);
      }
      if db.bookings[b].status !in {T.Pending, T.Accepted} {
        return Raised(BadRequest);
      }
      if b in db.payments {
        return Raised(Conflict);
      }
      var charge := ChargeFor(db.rides[db.bookings[b].ride].priceCents, currency);
      var answer := ask(charge);
      if answer.Down? {
        return Raised(BadGateway);
      }
      var intent := answer.value;
      var payment := Payment(user, intent.gateway, intent.orderId, charge, intent.reference, Pending, None);
      db.payments := db.payments[b := payment];
      return Done;
    }

    /** Looks the provider's reference up when it is missing; false when the provider is down. */
    method ReconcileProviderReference(id: nat, lookup: Answer<Snapshot>) returns (known: bool)
      requires id in db.payments
      modifies db`payments
      ensures known <==> Referenced(old(db.payments)[id], lookup).Some?
      ensures db.payments ==
              if known then old(db.payments)[id := Referenced(old(db.payments)[id], lookup).value] else old(db.payments)
    {
      if Usable(db.payments[id].reference) {
        return true;
      }
      if lookup.Down? {
        return false;
      }
      var snapshot := lookup.value;
      db.payments := db.payments[id := db.payments[id].(reference := snapshot.reference)];
      if snapshot.status in {Captured, Refunded, Failed} {
        db.payments := db.payments[id := db.payments[id].(status := snapshot.status)];
      }
      return true;
    }

    method SetReason(id: nat, reason: Option<Reason>)
      requires id in db.payments
      modifies db`payments
      ensures db.payments == old(db.payments)[id := old(db.payments)[id].(reason := reason)]
    {
      db.payments := db.payments[id := db.payments[id].(reason := reason)];
    }

    method SetStatus(id: nat, status: Status)
      requires id in db.payments
      modifies db`payments
      ensures db.payments == old(db.payments)[id := old(db.payments)[id].(status := status)]
    {
      db.payments := db.payments[id := db.payments[id].(status := status)];
    }

    method CapturePaymentForBooking(b: nat, v: Provider)
      modifies db`payments, db`jobs
      ensures Ledger() == Step(old(Ledger()), Capture(b, v))
      ensures db.jobs == old(db.jobs) + JobsOf(old(Ledger()), Capture(b, v))
    {
      if b !in db.payments || db.payments[b].status != Authorized {
        return;
      }
      var known := ReconcileProviderReference(b, v.lookup);
      if !known {
        SetReason(b, Some(ReconciliationFailedBeforeCapture));
        db.jobs := db.jobs + [CaptureRetry(b), Reconciliation(b)];
        return;
      }
      var captured := Usable(db.payments[b].reference) && v.capture == Says(true);
      if !captured {
        SetReason(b, Some(CaptureFailedRetryScheduled));
        db.jobs := db.jobs + [CaptureRetry(b)];
        return;
      }
      SetStatus(b, Captured);
      SetReason(b, None);
    }

    method RefundPaymentForBooking(b: nat, v: Provider)
      modifies db`payments, db`jobs
      ensures Ledger() == Step(old(Ledger()), Refund(b, v))
      ensures db.jobs == old(db.jobs) + JobsOf(old(Ledger()), Refund(b, v))
    {
      if b !in db.payments || db.payments[b].status !in {Authorized, Captured} {
        return;
      }
      var known := ReconcileProviderReference(b, v.lookup);
      if !known {
        SetReason(b, Some(ReconciliationFailedBeforeRefund));
        db.jobs := db.jobs + [RefundRetry(b), Reconciliation(b)];
        return;
      }
      var refunded := Usable(db.payments[b].reference) && v.refund == Says(true);
      if refunded {
        SetStatus(b, Refunded);
        SetReason(b, None);
      } else {
        SetReason(b, Some(RefundFailedRetryScheduled));
      }
      if db.payments[b].status != Refunded {
        db.jobs := db.jobs + [RefundRetry(b), Reconciliation(b)];
      }
    }

    /** The handler of a capture-retry job; an error makes the queue run it again. */
    method RetryCapturePayment(id: nat, v: Provider) returns (outcome: Outcome)
      modifies db`payments
      ensures Ledger() == Step(old(Ledger()), RetryCapture(id, v))
      ensures outcome != Done <==>
                && id in old(db.payments) && Capturable(old(db.payments)[id])
                && !Worked(old(db.payments)[id], v.lookup, v.capture)
    {
      if id !in db.payments || db.payments[id].status != Authorized {
        return Done;
      }
      var known := ReconcileProviderReference(id, v.lookup);
      if !known {
        SetReason(id, Some(ReconciliationFailed));
        return Raised(JobFailure);
      }
      var captured := Usable(db.payments[id].reference) && v.capture == Says(true);
      if !captured {
        SetReason(id, Some(CaptureFailed));
        return Raised(JobFailure);
      }
      SetStatus(id, Captured);
      SetReason(id, None);
      return Done;
    }

    /** The handler of a refund-retry job. */
    method RetryRefundPayment(id: nat, v: Provider) returns (outcome: Outcome)
      modifies db`payments
      ensures Ledger() == Step(old(Ledger()), RetryRefund(id, v))
      ensures outcome != Done <==>
                && id in old(db.payments) && Refundable(old(db.payments)[id])
                && !Worked(old(db.payments)[id], v.lookup, v.refund)
    {
      if id !in db.payments || db.payments[id].status !in {Authorized, Captured} {
        return Done;
      }
      var known := ReconcileProviderReference(id, v.lookup);
      if !known {
        SetReason(id, Some(ReconciliationFailed));
        return Raised(JobFailure);
      }
      var refunded := Usable(db.payments[id].reference) && v.refund == Says(true);
      if !refunded {
        SetReason(id, Some(RefundFailed));
        return Raised(JobFailure);
      }
      SetStatus(id, Refunded);
      SetReason(id, None);
      return Done;
    }

    predicate BookingAccepted(id: nat)
      reads this, db
    {
      id < |db.bookings| && db.bookings[id].status == T.Accepted
    }

    /** A payment that has become authorized while its booking is accepted is captured at once. */
    method CaptureIfAccepted(id: nat, v: Provider)
      requires id in db.payments
      modifies db`payments, db`jobs
      ensures db.payments ==
              old(db.payments)[id := CapturedIfAccepted(old(db.payments)[id], v, BookingAccepted(id))]
      ensures db.jobs == old(db.jobs) + FollowUpJobs(id, old(db.payments)[id], v, BookingAccepted(id))
      ensures if id < |db.bookings| && db.bookings[id].status == T.Accepted then
                db.payments[id] == CapturedForBooking(old(db.payments)[id], v)
              else
                db.payments == old(db.payments) && db.jobs == old(db.jobs)
    {
      if db.payments[id].status == Authorized && BookingAccepted(id) {
        CapturePaymentForBooking(id, v);
      }
    }

    method ConfirmPayment(user: nat, id: nat, v: Provider) returns (outcome: Outcome)
      modifies db`payments, db`jobs
      ensures id !in old(db.payments) ==> outcome == Raised(NotFound)
      ensures id in old(db.payments) && old(db.payments)[id].payer != user ==> outcome == Raised(Forbidden)
      ensures id in old(db.payments) && old(db.payments)[id].payer == user ==>
                && (outcome == Raised(BadRequest) <==> old(db.payments)[id].status !in {Pending, Authorized, Captured})
                && (outcome == Raised(BadGateway) <==> old(db.payments)[id].status == Pending && v.report.Down?)
                && Ledger() == Step(old(Ledger()), Confirm(id, v, BookingAccepted(id)))
      ensures outcome != Done ==> Ledger() == old(Ledger())
      ensures db.jobs == old(db.jobs) +
              if outcome == Done then JobsOf(old(Ledger()), Confirm(id, v, BookingAccepted(id))) else []
    {
      if id !in db.payments {
        return Raised(NotFound);
      }
      var payment := db.payments[id];
      if payment.payer != user {
        return Raised(Forbidden);
      }
      if payment.status in {Authorized, Captured} {
        return Done;
      }
      if payment.status != Pending {
        return Raised(BadRequest);
      }
      if v.report.Down? {
        return Raised(BadGateway);
      }
      var snapshot := v.report.value;
      if snapshot.status == Pending {
        db.payments := db.payments[id := payment.(reference := OrElse(snapshot.reference, payment.reference))];
        return Done;
      }
      if snapshot.status !in {Authorized, Captured} {
        SetStatus(id, Failed);
        SetReason(id, Some(ConfirmationFailed));
        return Done;
      }
      payment := payment.(status := snapshot.status);
      payment := payment.(reference := OrElse(snapshot.reference, payment.reference));
      payment := payment.(reason := None);
      db.payments := db.payments[id := payment];
      CaptureIfAccepted(id, v);
      return Done;
    }

    method ReconcilePayment(id: nat, v: Provider) returns (outcome: Outcome)
      modifies db`payments, db`jobs
      ensures outcome == if id in old(db.payments) && old(db.payments)[id].status !in TERMINAL && v.report.Down?
                         then Raised(BadGateway) else Done
      ensures Ledger() == Step(old(Ledger()), Reconcile(id, v, BookingAccepted(id)))
      ensures db.jobs == old(db.jobs) + JobsOf(old(Ledger()), Reconcile(id, v, BookingAccepted(id)))
    {
      if id !in db.payments || db.payments[id].status in {Refunded, Failed, Cancelled} {
        return Done;
      }
      if v.report.Down? {
        return Raised(BadGateway);
      }
      var payment, snapshot := db.payments[id], v.report.value;
      payment := payment.(status := snapshot.status);
      payment := payment.(reference := OrElse(snapshot.reference, payment.reference));
      payment := payment.(reason := if snapshot.status != Failed then None else Some(ProviderReportedFailure));
      db.payments := db.payments[id := payment];
      CaptureIfAccepted(id, v);
      return Done;
    }

    /** The row a webhook names: by the provider's reference first, then by the order id. */
    method FindPayment(e: WebhookEvent) returns (found: Option<nat>)
      ensures FoundBy(db.payments, e, found)
    {
      var todo := db.payments.Keys;
      found := None;
      while todo != {}
        invariant todo <= db.payments.Keys
        invariant found.Some? ==>
                    && found.value in db.payments
                    && Usable(e.orderId) && Some(db.payments[found.value].orderId) == e.orderId
        invariant forall i | i in db.payments && i !in todo :: db.payments[i].reference != Some(e.reference)
        invariant found.None? && Usable(e.orderId) ==>
                    forall i | i in db.payments && i !in todo :: Some(db.payments[i].orderId) != e.orderId
        decreases todo
      {
        var i :| i in todo;
        if db.payments[i].reference == Some(e.reference) {
          return Some(i);
        }
        if found.None? && Usable(e.orderId) && Some(db.payments[i].orderId) == e.orderId {
          found := Some(i);
        }
        todo := todo - {i};
      }
    }

    /**
     * A repeated delivery changes nothing and names the payment the first one named; a first one is stored, and
     * applied to the payment it names, if any. The payment's current status is returned with it.
     */
    method ProcessWebhookEvent(e: WebhookEvent)
      returns (processed: bool, payment: Option<nat>, status: Option<Status>)
      modifies db`payments, db`events
      ensures processed <==> Processes(old(Ledger()), e)
      ensures if processed then FoundBy(old(db.payments), e, payment) else payment == old(db.events)[e.eventId]
      ensures Ledger() == Step(old(Ledger()), Webhook(e, payment))
      ensures e.eventId in db.events && db.events[e.eventId] == payment && status == StatusOf(payment)
    {
      if e.eventId in db.events {
        payment := db.events[e.eventId];
        return false, payment, StatusOf(payment);
      }
      payment := FindPayment(e);
      db.events := db.events[e.eventId := payment];
      if payment.Some? {
        var id := payment.value;
        db.payments := db.payments[id := db.payments[id].(reference := Some(e.reference))];
        ApplyWebhookTransition(id, e.eventType);
      }
      return true, payment, StatusOf(payment);
    }

    function StatusOf(payment: Option<nat>): Option<Status>
      reads this, db
    {
      if payment.Some? && payment.value in db.payments then Some(db.payments[payment.value].status) else None
    }

    method ApplyWebhookTransition(id: nat, eventType: string)
      requires id in db.payments
      modifies db`payments
      ensures db.payments == old(db.payments)[id := WebhookApplied(old(db.payments)[id], eventType)]
    {
      var status := db.payments[id].status;
      if eventType == "payment.authorized" && status == Pending {
        SetStatus(id, Authorized);
        return;
      }
      if eventType == "payment.captured" && status in {Pending, Authorized} {
        SetStatus(id, Captured);
        SetReason(id, None);
        return;
      }
      if eventType == "payment.refunded" && status in {Authorized, Captured} {
        SetStatus(id, Refunded);
        SetReason(id, None);
        return;
      }
      if eventType == "payment.failed" && status in {Pending, Authorized} {
        SetStatus(id, Failed);
        SetReason(id, Some(ProviderReportedFailure));
        return;
      }
      if eventType in {"refund.processed", "payment.refunded"} && status in {Authorized, Captured, Refunded} {
        SetStatus(id, Refunded);
        SetReason(id, None);
        return;
      }
      if eventType == "refund.failed" && status != Refunded {
        SetReason(id, Some(ProviderReportedRefundFailure));
      }
    }
  }
}
