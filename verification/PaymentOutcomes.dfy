/**
 * What each payment operation of app/services/payment.py leaves, stated from the stored row, the provider's answers and
 * the webhook alone.
 */
module PaymentOutcomes {
  import opened Basics
  import opened Payments

  // ---------------------------------------------------------------- one capture or refund

  /** The provider can be asked: the payment has its own reference, or the lookup brings one. */
  predicate Reaches(reference: Option<string>, v: Provider) {
    Usable(reference) || (v.lookup.Says? && Usable(v.lookup.value.reference))
  }

  /** The reference is missing and the lookup reports a later status. */
  predicate LooksUp(reference: Option<string>, v: Provider, status: Status) {
    LooksUpLater(reference, v) && v.lookup.value.status == status
  }

  predicate LooksUpLater(reference: Option<string>, v: Provider) {
    !Usable(reference) && v.lookup.Says? && v.lookup.value.status in {Captured, Refunded, Failed}
  }

  /** The reference is missing and the provider is down. */
  predicate LookupFails(reference: Option<string>, v: Provider) {
    !Usable(reference) && v.lookup.Down?
  }

  /** The status an operation leaves: its target when the call is granted, else a looked-up one, else the old one. */
  ghost predicate Leaves(p: Payment, v: Provider, granted: bool, target: Status, q: Payment) {
    && (granted ==> q.status == target)
    && (!granted ==>
          q.status == if LooksUpLater(p.reference, v) then v.lookup.value.status else p.status)
    && q.reference == (if Usable(p.reference) || v.lookup.Down? then p.reference else v.lookup.value.reference)
    && SameTerms(p, q)
  }

  ghost predicate ReasonAfter(p: Payment, v: Provider, granted: bool, down: Reason, failed: Reason, q: Payment) {
    q.reason == if granted then None else if LookupFails(p.reference, v) then Some(down) else Some(failed)
  }

  /** A refund asked for with a cancellation: refunded iff granted or looked up, else retried and reconciled. */
  lemma RefundSettles(id: nat, p: Payment, v: Provider)
    requires p.status in {Authorized, Captured}
    ensures var q := RefundedForBooking(p, v);
            var granted := Reaches(p.reference, v) && v.refund == Says(true);
            && Leaves(p, v, granted, Refunded, q)
            && ReasonAfter(p, v, granted, ReconciliationFailedBeforeRefund, RefundFailedRetryScheduled, q)
            && (q.status == Refunded <==> granted || LooksUp(p.reference, v, Refunded))
            && RefundJobs(id, p, v) ==
               if granted || LooksUp(p.reference, v, Refunded) then [] else [RefundRetry(id), Reconciliation(id)]
  {
  }

  /** A capture for an accepted or completed booking: retried unless granted, reconciled when the provider is down. */
  lemma CaptureSettles(id: nat, p: Payment, v: Provider)
    requires p.status == Authorized
    ensures var q := CapturedForBooking(p, v);
            var granted := Reaches(p.reference, v) && v.capture == Says(true);
            && Leaves(p, v, granted, Captured, q)
            && ReasonAfter(p, v, granted, ReconciliationFailedBeforeCapture, CaptureFailedRetryScheduled, q)
            && (q.status == Captured <==> granted || LooksUp(p.reference, v, Captured))
            && CaptureJobs(id, p, v) ==
               if granted then []
               else if LookupFails(p.reference, v) then [CaptureRetry(id), Reconciliation(id)]
               else [CaptureRetry(id)]
  {
  }

  /** The two retries settle the same way, with their own reasons and no further jobs. */
  lemma RetriesSettle(t: Table, id: nat, v: Provider)
    requires id in t.payments
    ensures var p := t.payments[id];
            var granted := Reaches(p.reference, v) && v.refund == Says(true);
            && (p.status in {Authorized, Captured} ==>
                  && Leaves(p, v, granted, Refunded, RefundRetried(p, v))
                  && ReasonAfter(p, v, granted, ReconciliationFailed, RefundFailed, RefundRetried(p, v)))
            && (p.status !in {Authorized, Captured} ==> RefundRetried(p, v) == p)
    ensures var p := t.payments[id];
            var granted := Reaches(p.reference, v) && v.capture == Says(true);
            && (p.status == Authorized ==>
                  && Leaves(p, v, granted, Captured, CaptureRetried(p, v))
                  && ReasonAfter(p, v, granted, ReconciliationFailed, CaptureFailed, CaptureRetried(p, v)))
            && (p.status != Authorized ==> CaptureRetried(p, v) == p)
    ensures JobsOf(t, RetryRefund(id, v)) == JobsOf(t, RetryCapture(id, v)) == []
  {
  }

  /** Payments that are not authorized are not captured, and those neither authorized nor captured are not refunded. */
  lemma OthersStay(id: nat, p: Payment, v: Provider)
    ensures p.status != Authorized ==> CapturedForBooking(p, v) == p && CaptureJobs(id, p, v) == []
    ensures p.status !in {Authorized, Captured} ==> RefundedForBooking(p, v) == p && RefundJobs(id, p, v) == []
  {
  }

  /** A provider call counts as made and granted exactly when the provider can be asked and says yes. */
  lemma WorkedIff(p: Payment, lookup: Answer<Snapshot>, answer: Answer<bool>)
    ensures Worked(p, lookup, answer)
            <==> && (Usable(p.reference) || (lookup.Says? && Usable(lookup.value.reference)))
                 && answer == Says(true)
  {
  }

  // ---------------------------------------------------------------- confirmations, reconciliations, webhooks

  /** A confirmation takes an authorization or a capture over, fails on any other report but pending. */
  lemma ConfirmedIs(p: Payment, s: Snapshot)
    ensures var q := Confirmed(p, s);
            && SameTerms(p, q)
            && (s.status == Authorized || s.status == Captured ==> q.status == s.status && q.reason == None)
            && (s.status in {Refunded, Failed, Cancelled} ==>
                  q.status == Failed && q.reason == Some(ConfirmationFailed) && q.reference == p.reference)
            && (s.status == Pending ==> q.status == p.status && q.reason == p.reason)
            && (s.status in {Pending, Authorized, Captured} ==>
                  q.reference == if Usable(s.reference) then s.reference else p.reference)
  {
  }

  /** A reconciliation stores the reported status, and a reported reference. */
  lemma ReconciledIs(p: Payment, s: Snapshot)
    ensures var q := Reconciled(p, s);
            && SameTerms(p, q) && q.status == s.status
            && q.reference == (if Usable(s.reference) then s.reference else p.reference)
            && (q.reason == Some(ProviderReportedFailure) <==> s.status == Failed)
            && (q.reason == None <==> s.status != Failed)
  {
  }

  /** Which webhook moves which status where; all others leave the status alone. */
  const WEBHOOK_MOVES := map[
    ("payment.authorized", Pending) := Authorized,
    ("payment.captured", Pending) := Captured,
    ("payment.captured", Authorized) := Captured,
    ("payment.failed", Pending) := Failed,
    ("payment.failed", Authorized) := Failed,
    ("payment.refunded", Authorized) := Refunded,
    ("payment.refunded", Captured) := Refunded,
    ("refund.processed", Authorized) := Refunded,
    ("refund.processed", Captured) := Refunded
  ]

  /** The first delivery of a webhook moves the named payment by the table and stores its reference; nothing else. */
  lemma WebhookMoves(t: Table, e: WebhookEvent, found: Option<nat>)
    requires found.Some? ==> found.value in t.payments
    ensures var after := Step(t, Webhook(e, found));
            && (e.eventId in t.events ==> after == t)
            && (e.eventId !in t.events ==>
                  && after.events == t.events[e.eventId := found]
                  && after.payments.Keys == t.payments.Keys
                  && (forall id | id in t.payments && found != Some(id) :: after.payments[id] == t.payments[id])
                  && (found.Some? ==> MovedByWebhook(t.payments[found.value], e, after.payments[found.value])))
  {
    if found.Some? {
      RowMovedByWebhook(t.payments[found.value], e);
    }
  }

  lemma RowMovedByWebhook(p: Payment, e: WebhookEvent)
    ensures MovedByWebhook(p, e, WebhookApplied(p.(reference := Some(e.reference)), e.eventType))
  {
  }

  ghost predicate MovedByWebhook(p: Payment, e: WebhookEvent, q: Payment) {
    var move := (e.eventType, p.status);
    && SameTerms(p, q) && q.reference == Some(e.reference)
    && q.status == (if move in WEBHOOK_MOVES then WEBHOOK_MOVES[move] else p.status)
    && q.reason ==
       if q.status == Failed && p.status != Failed then Some(ProviderReportedFailure)
       else if e.eventType == "refund.failed" && p.status != Refunded then Some(ProviderReportedRefundFailure)
       else if q.status != p.status && q.status in {Captured, Refunded} then None
       else if p.status == Refunded && e.eventType in {"refund.processed", "payment.refunded"} then None
       else p.reason
  }

  /** Every other action changes the payment it names only, and creates one only where there is none. */
  lemma StepIsLocal(t: Table, a: Action, other: nat)
    requires !a.Webhook? && other != a.id
    ensures Step(t, a).events == t.events
    ensures other in Step(t, a).payments <==> other in t.payments
    ensures other in t.payments ==> Step(t, a).payments[other] == t.payments[other]
  {
  }

  lemma CreateStores(t: Table, a: Action)
    requires a.Create?
    ensures a.id in t.payments ==> Step(t, a) == t
    ensures a.id !in t.payments ==>
              && a.id in Step(t, a).payments
              && var p := Step(t, a).payments[a.id];
                 && p.payer == a.payer && p.gateway == a.gateway && p.orderId == a.orderId && p.charge == a.charge
                 && p.reference == a.reference && p.status == Pending && p.reason == None
  {
  }

  /** Confirmations concern pending payments, reconciliations those that are not final; both need an answer. */
  lemma ReportsAreTaken(t: Table, a: Action)
    requires (a.Confirm? || a.Reconcile?) && a.id in t.payments
    ensures var p, q := t.payments[a.id], Step(t, a).payments[a.id];
            var taken := a.provider.report.Says?
                         && if a.Confirm? then p.status == Pending else p.status !in {Refunded, Failed, Cancelled};
            && (!taken ==> q == p && JobsOf(t, a) == [])
            && (taken ==>
                  var stored := if a.Confirm? then Confirmed(p, a.provider.report.value)
                                else Reconciled(p, a.provider.report.value);
                  if a.accepted && stored.status == Authorized then
                    q == CapturedForBooking(stored, a.provider) && JobsOf(t, a) == CaptureJobs(a.id, stored, a.provider)
                  else
                    q == stored && JobsOf(t, a) == [])
  {
  }

  // ---------------------------------------------------------------- how a payment becomes refunded

  /** A snapshot this action asks the provider for reports the payment as refunded. */
  ghost predicate ReportedRefunded(a: Action) {
    && !a.Create? && !a.Webhook?
    && ((a.provider.report.Says? && a.provider.report.value.status == Refunded && a.Reconcile?)
        || (a.provider.lookup.Says? && a.provider.lookup.value.status == Refunded))
  }

  ghost predicate WebhookRefunds(t: Table, a: Action, id: nat) {
    && a.Webhook? && a.event.eventId !in t.events && a.found == Some(id)
    && a.event.eventType in {"refund.processed", "payment.refunded"}
  }

  /** A payment only becomes refunded by a granted refund, by the provider's report, or by its webhook. */
  lemma RefundedOnlyIf(t: Table, a: Action, id: nat)
    requires id in t.payments && t.payments[id].status != Refunded
    requires Step(t, a).payments[id].status == Refunded
    ensures || (&& (a.Refund? || a.RetryRefund?) && a.id == id
                && Reaches(t.payments[id].reference, a.provider) && a.provider.refund == Says(true))
            || (ReportedRefunded(a) && a.id == id)
            || WebhookRefunds(t, a, id)
  {
  }

  /** And only becomes captured by a granted capture, by the provider's report, or by its webhook. */
  lemma CapturedOnlyIf(t: Table, a: Action, id: nat)
    requires id in t.payments && t.payments[id].status != Captured
    requires Step(t, a).payments[id].status == Captured
    ensures || CaptureGranted(t, a, id)
            || (&& !a.Create? && !a.Webhook? && a.id == id
                && ((&& (a.Confirm? || a.Reconcile?)
                     && a.provider.report.Says? && a.provider.report.value.status == Captured)
                    || (a.provider.lookup.Says? && a.provider.lookup.value.status == Captured)))
            || (&& a.Webhook? && a.event.eventId !in t.events && a.found == Some(id)
                && a.event.eventType == "payment.captured")
  {
  }

  // ---------------------------------------------------------------- what the counts of calls count

  /** Whatever is not missing or empty is a reference. */
  lemma UsableIff(reference: Option<string>)
    ensures Usable(reference) <==> reference !in {None, Some("")}
  {
    if reference.Some? {
      assert reference == Some("") <==> reference.value == "";
    }
  }

  /** The refunds and captures counted over runs are the provider calls that were made and granted. */
  lemma GrantsAreCalls(t: Table, a: Action, id: nat)
    requires id in t.payments && !a.Create? && !a.Webhook? && a.id == id
    ensures var p := t.payments[id];
            && (a.Refund? || a.RetryRefund? ==>
                  (RefundGranted(t, a, id)
                   <==> p.status in {Authorized, Captured} && Reaches(p.reference, a.provider)
                        && a.provider.refund == Says(true)))
            && (a.Capture? || a.RetryCapture? ==>
                  (CaptureGranted(t, a, id)
                   <==> p.status == Authorized && Reaches(p.reference, a.provider) && a.provider.capture == Says(true)))
            && (a.Confirm? || a.Reconcile? ==>
                  (CaptureGranted(t, a, id)
                   <==> && a.accepted && a.provider.report.Says? && a.provider.report.value.status == Authorized
                        && (if a.Confirm? then p.status == Pending else p.status !in {Refunded, Failed, Cancelled})
                        && Reaches(OrElse(a.provider.report.value.reference, p.reference), a.provider)
                        && a.provider.capture == Says(true)))
            && (!a.Refund? && !a.RetryRefund? ==> !RefundGranted(t, a, id))
            && (a.Refund? || a.RetryRefund? ==> !CaptureGranted(t, a, id))
  {
  }

  /** A webhook concerns the payment with its reference; if there is none, the one with its order id, if it has one. */
  lemma FoundIs(payments: map<nat, Payment>, e: WebhookEvent, found: Option<nat>, id: nat)
    requires FoundBy(payments, e, found) && id in payments
    ensures found.Some? ==> found.value in payments
    ensures payments[id].reference == Some(e.reference) ==>
              found.Some? && payments[found.value].reference == Some(e.reference)
    ensures (forall i | i in payments :: payments[i].reference != Some(e.reference)) ==>
              if e.orderId in {None, Some("")} then found == None
              else
                && (found.Some? ==> Some(payments[found.value].orderId) == e.orderId)
                && (Some(payments[id].orderId) == e.orderId ==> found.Some?)
  {
    UsableIff(e.orderId);
  }
}
