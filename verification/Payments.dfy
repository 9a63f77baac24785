/** One payment's life in app/services/payment.py, the payments table, and whole runs of it. */
module Payments {
  import opened Basics

  datatype Status = Pending | Authorized | Captured | Cancelled | Refunded | Failed

  datatype Reason =
    | ConfirmationFailed
    | ReconciliationFailedBeforeCapture
    | CaptureFailedRetryScheduled
    | ReconciliationFailedBeforeRefund
    | RefundFailedRetryScheduled
    | ReconciliationFailed
    | CaptureFailed
    | RefundFailed
    | ProviderReportedFailure
    | ProviderReportedRefundFailure

  /** What a payment is for: the price of the seat in cents, the same in minor units, and their currency. */
  datatype Charge = Charge(cents: int, minor: int, currency: string)

  datatype Gateway = Mock | Razorpay

  /** `reference` is the provider's payment id, missing until the provider reports one. */
  datatype Payment =
    Payment(payer: nat, gateway: Gateway, orderId: string, charge: Charge,
            reference: Option<string>, status: Status, reason: Option<Reason>)

  datatype Snapshot = Snapshot(status: Status, reference: Option<string>)

  /**
   * Everything the provider may say during one operation, and nothing is assumed of it: the snapshot a
   * confirmation or reconciliation asks for, the snapshot looked up when the reference is missing, and the
   * answers to a capture and to a refund call.
   */
  datatype Provider =
    Provider(report: Answer<Snapshot>, lookup: Answer<Snapshot>, capture: Answer<bool>, refund: Answer<bool>)

  datatype Job = CaptureRetry(payment: nat) | RefundRetry(payment: nat) | Reconciliation(payment: nat)

  const TERMINAL := {Refunded, Failed, Cancelled}

  function Rank(s: Status): nat {
    match s
    case Pending => 0
    case Authorized => 1
    case Captured => 2
    case Refunded | Failed | Cancelled => 3
  }

  predicate Usable(reference: Option<string>) {
    reference.Some? && reference.value != ""
  }

  function OrElse(reference: Option<string>, other: Option<string>): Option<string> {
    if Usable(reference) then reference else other
  }

  /** The payment once its provider reference is known; None when the provider had to be asked and was down. */
  function Referenced(p: Payment, lookup: Answer<Snapshot>): Option<Payment> {
    if Usable(p.reference) then Some(p)
    else
      match lookup
      case Down => None
      case Says(s) =>
        Some(p.(reference := s.reference,
                status := if s.status in {Captured, Refunded, Failed} then s.status else p.status))
  }

  /** A provider call that was made and succeeded. */
  predicate Worked(p: Payment, lookup: Answer<Snapshot>, answer: Answer<bool>) {
    var q := Referenced(p, lookup);
    q.Some? && Usable(q.value.reference) && answer == Says(true)
  }

  /** Settles an operation: the target status when the call worked, otherwise the reason it did not. */
  function Settled(
      p: Payment, lookup: Answer<Snapshot>, answer: Answer<bool>, target: Status, down: Reason, failed: Reason): Payment
  {
    match Referenced(p, lookup)
    case None => p.(reason := Some(down))
    case Some(q) =>
      if Worked(p, lookup, answer) then q.(status := target, reason := None) else q.(reason := Some(failed))
  }

  predicate Capturable(p: Payment) {
    p.status == Authorized
  }

  predicate Refundable(p: Payment) {
    p.status in {Authorized, Captured}
  }

  function CapturedForBooking(p: Payment, v: Provider): Payment {
    if !Capturable(p) then p
    else Settled(p, v.lookup, v.capture, Captured, ReconciliationFailedBeforeCapture, CaptureFailedRetryScheduled)
  }

  function CaptureJobs(id: nat, p: Payment, v: Provider): seq<Job> {
    if !Capturable(p) then []
    else if Referenced(p, v.lookup).None? then [CaptureRetry(id), Reconciliation(id)]
    else if Worked(p, v.lookup, v.capture) then []
    else [CaptureRetry(id)]
  }

  function RefundedForBooking(p: Payment, v: Provider): Payment {
    if !Refundable(p) then p
    else Settled(p, v.lookup, v.refund, Refunded, ReconciliationFailedBeforeRefund, RefundFailedRetryScheduled)
  }

  /** A failed refund call schedules nothing when the lookup already reported the payment as refunded. */
  function RefundJobs(id: nat, p: Payment, v: Provider): seq<Job> {
    if !Refundable(p) || RefundedForBooking(p, v).status == Refunded then []
    else [RefundRetry(id), Reconciliation(id)]
  }

  function CaptureRetried(p: Payment, v: Provider): Payment {
    if !Capturable(p) then p
    else Settled(p, v.lookup, v.capture, Captured, ReconciliationFailed, CaptureFailed)
  }

  function RefundRetried(p: Payment, v: Provider): Payment {
    if !Refundable(p) then p
    else Settled(p, v.lookup, v.refund, Refunded, ReconciliationFailed, RefundFailed)
  }

  /** A payment that became authorized while its booking is accepted is captured at once. */
  function CapturedIfAccepted(p: Payment, v: Provider, accepted: bool): Payment {
    if accepted then CapturedForBooking(p, v) else p
  }

  /** The jobs of that capture. */
  function FollowUpJobs(id: nat, p: Payment, v: Provider, accepted: bool): seq<Job> {
    if accepted then CaptureJobs(id, p, v) else []
  }

  /** The stored row after the first commit of a confirmation. */
  function Confirmed(p: Payment, s: Snapshot): Payment {
    if s.status == Pending then p.(reference := OrElse(s.reference, p.reference))
    else if s.status !in {Authorized, Captured} then p.(status := Failed, reason := Some(ConfirmationFailed))
    else p.(status := s.status, reference := OrElse(s.reference, p.reference), reason := None)
  }

  function AfterConfirm(p: Payment, v: Provider, accepted: bool): Payment {
    if p.status != Pending || v.report.Down? then p
    else CapturedIfAccepted(Confirmed(p, v.report.value), v, accepted)
  }

  /** The stored row after the first commit of a reconciliation: the reported status, whatever it is. */
  function Reconciled(p: Payment, s: Snapshot): Payment {
    p.(status := s.status,
       reference := OrElse(s.reference, p.reference),
       reason := if s.status == Failed then Some(ProviderReportedFailure) else None)
  }

  function AfterReconcile(p: Payment, v: Provider, accepted: bool): Payment {
    if p.status in TERMINAL || v.report.Down? then p
    else CapturedIfAccepted(Reconciled(p, v.report.value), v, accepted)
  }

  function WebhookApplied(p: Payment, eventType: string): Payment {
    if eventType == "payment.authorized" && p.status == Pending then
      p.(status := Authorized)
    else if eventType == "payment.captured" && p.status in {Pending, Authorized} then
      p.(status := Captured, reason := None)
    else if eventType == "payment.failed" && p.status in {Pending, Authorized} then
      p.(status := Failed, reason := Some(ProviderReportedFailure))
    else if eventType in {"refund.processed", "payment.refunded"} && p.status in {Authorized, Captured, Refunded} then
      p.(status := Refunded, reason := None)
    else if eventType == "refund.failed" && p.status != Refunded then
      p.(reason := Some(ProviderReportedRefundFailure))
    else p
  }

  // ---------------------------------------------------------------- the table

  datatype WebhookEvent = WebhookEvent(eventId: string, eventType: string, reference: string, orderId: Option<string>)

  /** Payments by the booking they pay for, which is unique; and the stored events with the payment each names. */
  datatype Table = Table(payments: map<nat, Payment>, events: map<string, Option<nat>>)

  /** `found` is a row the two lookups of a webhook may return: by reference first, then by order id. */
  ghost predicate FoundBy(payments: map<nat, Payment>, e: WebhookEvent, found: Option<nat>) {
    var byReference := exists i :: i in payments && payments[i].reference == Some(e.reference);
    var byOrder := Usable(e.orderId) && exists i :: i in payments && Some(payments[i].orderId) == e.orderId;
    match found
    case Some(i) =>
      && i in payments
      && (payments[i].reference == Some(e.reference)
          || (!byReference && Usable(e.orderId) && Some(payments[i].orderId) == e.orderId))
    case None => !byReference && !byOrder
  }

  datatype Action =
    | Create(id: nat, payer: nat, gateway: Gateway, orderId: string, charge: Charge, reference: Option<string>)
    | Confirm(id: nat, provider: Provider, accepted: bool)
    | Capture(id: nat, provider: Provider)
    | Refund(id: nat, provider: Provider)
    | RetryCapture(id: nat, provider: Provider)
    | RetryRefund(id: nat, provider: Provider)
    | Reconcile(id: nat, provider: Provider, accepted: bool)
    | Webhook(event: WebhookEvent, found: Option<nat>)

  /** The effect of an action on the row it names. */
  function OnRow(p: Payment, a: Action): Payment {
    match a
    case Create(_, _, _, _, _, _) => p
    case Confirm(_, v, accepted) => AfterConfirm(p, v, accepted)
    case Capture(_, v) => CapturedForBooking(p, v)
    case Refund(_, v) => RefundedForBooking(p, v)
    case RetryCapture(_, v) => CaptureRetried(p, v)
    case RetryRefund(_, v) => RefundRetried(p, v)
    case Reconcile(_, v, accepted) => AfterReconcile(p, v, accepted)
    case Webhook(e, _) => WebhookApplied(p.(reference := Some(e.reference)), e.eventType)
  }

  /** A webhook is processed the first time its event id is seen, whether or not it names a payment. */
  predicate Processes(t: Table, e: WebhookEvent) {
    e.eventId !in t.events
  }

  function Changed(payments: map<nat, Payment>, id: nat, a: Action): map<nat, Payment> {
    if id in payments then payments[id := OnRow(payments[id], a)] else payments
  }

  function Step(t: Table, a: Action): Table {
    match a
    case Create(id, payer, gateway, orderId, charge, reference) =>
      if id in t.payments then t
      else
        var payment := Payment(payer, gateway, orderId, charge, reference, Pending, None);
        t.(payments := t.payments[id := payment])
    case Webhook(e, found) =>
      if !Processes(t, e) then t
      else
        Table(if found.Some? then Changed(t.payments, found.value, a) else t.payments, t.events[e.eventId := found])
    case _ => t.(payments := Changed(t.payments, a.id, a))
  }

  /** The jobs an action hands to the queue. */
  function JobsOf(t: Table, a: Action): seq<Job> {
    if !a.Create? && !a.Webhook? && a.id in t.payments then RowJobs(a.id, t.payments[a.id], a) else []
  }

  function RowJobs(id: nat, p: Payment, a: Action): seq<Job> {
    match a
    case Confirm(_, v, accepted) =>
      if p.status != Pending || v.report.Down? then []
      else FollowUpJobs(id, Confirmed(p, v.report.value), v, accepted)
    case Reconcile(_, v, accepted) =>
      if p.status in TERMINAL || v.report.Down? then []
      else FollowUpJobs(id, Reconciled(p, v.report.value), v, accepted)
    case Capture(_, v) => CaptureJobs(id, p, v)
    case Refund(_, v) => RefundJobs(id, p, v)
    case _ => []
  }

  function After(t: Table, run: seq<Action>): Table
    decreases run
  {
    if run == [] then t else After(Step(t, run[0]), run[1..])
  }

  lemma {:induction false} AfterAppend(t: Table, first: seq<Action>, second: seq<Action>)
    ensures After(t, first + second) == After(After(t, first), second)
    decreases first
  {
    if first == [] {
      assert first + second == second;
    } else {
      assert (first + second)[1..] == first[1..] + second;
      AfterAppend(Step(t, first[0]), first[1..], second);
    }
  }

  lemma AfterOneMore(t: Table, run: seq<Action>, a: Action)
    ensures After(t, run + [a]) == Step(After(t, run), a)
  {
    AfterAppend(t, run, [a]);
    assert [a][1..] == [];
    assert After(After(t, run), [a]) == After(Step(After(t, run), a), []);
  }

  // ---------------------------------------------------------------- statuses over whole runs

  lemma StepAbsorbs(t: Table, a: Action, id: nat)
    requires id in t.payments
    ensures id in Step(t, a).payments
    ensures t.payments[id].status in TERMINAL ==> Step(t, a).payments[id].status == t.payments[id].status
  {
  }

  /** Refunded, failed and cancelled are final under every entry point, whatever the provider says. */
  lemma {:induction false} TerminalIsFinal(t: Table, run: seq<Action>, id: nat)
    requires id in t.payments && t.payments[id].status in TERMINAL
    ensures id in After(t, run).payments && After(t, run).payments[id].status == t.payments[id].status
    decreases run
  {
    if run == [] {
    } else {
      StepAbsorbs(t, run[0], id);
      TerminalIsFinal(Step(t, run[0]), run[1..], id);
    }
  }

  /** The same payer, provider, order and charge. */
  predicate SameTerms(p: Payment, q: Payment) {
    p.payer == q.payer && p.gateway == q.gateway && p.orderId == q.orderId && p.charge == q.charge
  }

  lemma StepKeepsTerms(t: Table, a: Action, id: nat)
    requires id in t.payments
    ensures id in Step(t, a).payments && SameTerms(t.payments[id], Step(t, a).payments[id])
  {
  }

  /** Who pays what, and the provider's order, never change; and a stored event keeps naming the same payment. */
  lemma {:induction false} TermsAreFinal(t: Table, run: seq<Action>, id: nat, eventId: string)
    ensures id in t.payments ==>
              id in After(t, run).payments && SameTerms(t.payments[id], After(t, run).payments[id])
    ensures eventId in t.events ==>
              eventId in After(t, run).events && After(t, run).events[eventId] == t.events[eventId]
    decreases run
  {
    if run == [] {
    } else {
      if id in t.payments {
        StepKeepsTerms(t, run[0], id);
      }
      TermsAreFinal(Step(t, run[0]), run[1..], id, eventId);
    }
  }

  /** The action does not make a reconciliation store a report of lower rank than the stored status. */
  ghost predicate KeepsRank(t: Table, a: Action) {
    a.Reconcile? && a.id in t.payments && a.provider.report.Says? && t.payments[a.id].status !in TERMINAL ==>
      Rank(a.provider.report.value.status) >= Rank(t.payments[a.id].status)
  }

  ghost predicate RunKeepsRank(t: Table, run: seq<Action>)
    decreases run
  {
    run == [] || (KeepsRank(t, run[0]) && RunKeepsRank(Step(t, run[0]), run[1..]))
  }

  /** No committed step lowers the rank, except a reconciliation that is told a lower one. */
  lemma StepKeepsRank(t: Table, a: Action, id: nat)
    requires id in t.payments && KeepsRank(t, a)
    ensures id in Step(t, a).payments && Rank(Step(t, a).payments[id].status) >= Rank(t.payments[id].status)
  {
  }

  /** If the provider never reports less than what is stored, every payment's status only moves up. */
  lemma {:induction false} RunIsMonotone(t: Table, run: seq<Action>, id: nat)
    requires id in t.payments && RunKeepsRank(t, run)
    ensures id in After(t, run).payments
    ensures Rank(After(t, run).payments[id].status) >= Rank(t.payments[id].status)
    decreases run
  {
    if run == [] {
    } else {
      StepKeepsRank(t, run[0], id);
      RunIsMonotone(Step(t, run[0]), run[1..], id);
    }
  }

  /**
   * Exactly when a reconciliation lowers the rank: the report ranks below the stored status, and it is not an
   * authorization of an accepted booking that the capture following it moves on, either because the provider grants
   * the capture or because it reports a later status when it is asked for a missing reference.
   */
  lemma ReconcileLowersIff(p: Payment, v: Provider, accepted: bool)
    requires p.status !in TERMINAL && v.report.Says?
    ensures var report := v.report.value;
            var reference := OrElse(report.reference, p.reference);
            var asked := !Usable(reference) && v.lookup.Says?;
            var known := Usable(reference) || (asked && Usable(v.lookup.value.reference));
            Rank(AfterReconcile(p, v, accepted).status) < Rank(p.status)
            <==> && Rank(report.status) < Rank(p.status)
                 && !(&& accepted && report.status == Authorized
                      && ((known && v.capture == Says(true))
                          || (asked && v.lookup.value.status in {Captured, Refunded, Failed})))
  {
  }

  /** Such a report exists: a captured payment goes back to pending when the provider says so. */
  lemma ReconcileCanLower(p: Payment, v: Provider)
    requires p.status == Captured && v.report == Says(Snapshot(Pending, None))
    ensures AfterReconcile(p, v, false).status == Pending
  {
  }

  // ---------------------------------------------------------------- at most one refund

  /** Whether the provider is asked for a refund of `id` in this step and grants it. */
  predicate RefundGranted(t: Table, a: Action, id: nat) {
    && (a.Refund? || a.RetryRefund?) && a.id == id && id in t.payments
    && Refundable(t.payments[id]) && Worked(t.payments[id], a.provider.lookup, a.provider.refund)
  }

  function Refunds(t: Table, run: seq<Action>, id: nat): nat
    decreases run
  {
    if run == [] then 0
    else (if RefundGranted(t, run[0], id) then 1 else 0) + Refunds(Step(t, run[0]), run[1..], id)
  }

  lemma {:induction false} NoRefundOnceFinal(t: Table, run: seq<Action>, id: nat)
    requires id in t.payments && t.payments[id].status in TERMINAL
    ensures Refunds(t, run, id) == 0
    decreases run
  {
    if run == [] {
    } else {
      StepAbsorbs(t, run[0], id);
      NoRefundOnceFinal(Step(t, run[0]), run[1..], id);
    }
  }

  /** Over any run whose steps commit, the provider grants at most one refund of a payment, and then it is refunded. */
  lemma {:induction false} RefundAtMostOnce(t: Table, run: seq<Action>, id: nat)
    ensures Refunds(t, run, id) <= 1
    ensures Refunds(t, run, id) == 1 ==> id in After(t, run).payments && After(t, run).payments[id].status == Refunded
    decreases run
  {
    if run == [] {
    } else {
      if RefundGranted(t, run[0], id) {
        NoRefundOnceFinal(Step(t, run[0]), run[1..], id);
        TerminalIsFinal(Step(t, run[0]), run[1..], id);
      } else {
        RefundAtMostOnce(Step(t, run[0]), run[1..], id);
      }
    }
  }

  /** A refund attempt on an authorized or captured payment leaves it refunded, or leaves a refund retry to run. */
  lemma RefundedOrRetried(id: nat, p: Payment, v: Provider)
    requires Refundable(p)
    ensures RefundedForBooking(p, v).status == Refunded <==> RefundRetry(id) !in RefundJobs(id, p, v)
  {
  }

  // ---------------------------------------------------------------- at most one capture

  /** Whether a capture of the payment is asked for and granted. */
  predicate CaptureWorks(p: Payment, v: Provider) {
    Capturable(p) && Worked(p, v.lookup, v.capture)
  }

  /** The same for payment `id` in a step, counting the captures that follow a confirmation or a reconciliation. */
  predicate CaptureGranted(t: Table, a: Action, id: nat) {
    && !a.Create? && !a.Webhook? && a.id == id && id in t.payments
    && var p := t.payments[id];
       match a
       case Capture(_, v) => CaptureWorks(p, v)
       case RetryCapture(_, v) => CaptureWorks(p, v)
       case Confirm(_, v, accepted) =>
         accepted && p.status == Pending && v.report.Says? && CaptureWorks(Confirmed(p, v.report.value), v)
       case Reconcile(_, v, accepted) =>
         accepted && p.status !in TERMINAL && v.report.Says? && CaptureWorks(Reconciled(p, v.report.value), v)
       case _ => false
  }

  function Captures(t: Table, run: seq<Action>, id: nat): nat
    decreases run
  {
    if run == [] then 0
    else (if CaptureGranted(t, run[0], id) then 1 else 0) + Captures(Step(t, run[0]), run[1..], id)
  }

  lemma GrantedIsCaptured(t: Table, a: Action, id: nat)
    requires CaptureGranted(t, a, id)
    ensures id in Step(t, a).payments && Step(t, a).payments[id].status == Captured
  {
  }

  lemma {:induction false} NoCaptureOnceCaptured(t: Table, run: seq<Action>, id: nat)
    requires id in t.payments && Rank(t.payments[id].status) >= 2 && RunKeepsRank(t, run)
    ensures Captures(t, run, id) == 0
    decreases run
  {
    if run == [] {
    } else {
      StepKeepsRank(t, run[0], id);
      NoCaptureOnceCaptured(Step(t, run[0]), run[1..], id);
    }
  }

  /**
   * Over any run whose steps commit, in which no reconciliation is told less than what is stored, the provider grants
   * at most one capture of a payment.
   */
  lemma {:induction false} CaptureAtMostOnce(t: Table, run: seq<Action>, id: nat)
    requires RunKeepsRank(t, run)
    ensures Captures(t, run, id) <= 1
    decreases run
  {
    if run == [] {
    } else if CaptureGranted(t, run[0], id) {
      GrantedIsCaptured(t, run[0], id);
      NoCaptureOnceCaptured(Step(t, run[0]), run[1..], id);
    } else {
      CaptureAtMostOnce(Step(t, run[0]), run[1..], id);
    }
  }

  /** Told less, the provider may be asked again: a captured payment reported as authorized is captured once more. */
  lemma CapturedTwice(t: Table, id: nat, v: Provider)
    requires id in t.payments && t.payments[id].status == Captured && Usable(t.payments[id].reference)
    requires v.report == Says(Snapshot(Authorized, None)) && v.capture == Says(true)
    ensures CaptureGranted(t, Reconcile(id, v, true), id)
  {
  }

  // ---------------------------------------------------------------- webhooks

  /** The run without the webhooks whose event id was seen before, `seen` being the ids stored at the start. */
  function WithoutRepeats(run: seq<Action>, seen: set<string>): seq<Action> {
    if run == [] then []
    else if !run[0].Webhook? then [run[0]] + WithoutRepeats(run[1..], seen)
    else if run[0].event.eventId in seen then WithoutRepeats(run[1..], seen)
    else [run[0]] + WithoutRepeats(run[1..], seen + {run[0].event.eventId})
  }

  /** Deliveries repeated any number of times, between any other steps, end in the state without the repeats. */
  lemma {:induction false} RepeatsHaveNoEffect(t: Table, run: seq<Action>)
    ensures After(t, run) == After(t, WithoutRepeats(run, t.events.Keys))
    decreases run
  {
    if run == [] {
    } else {
      var next := Step(t, run[0]);
      RepeatsHaveNoEffect(next, run[1..]);
      if run[0].Webhook? && !Processes(t, run[0].event) {
        assert next == t;
      } else {
        var rest := WithoutRepeats(run[1..], next.events.Keys);
        assert run[0].Webhook? ==> next.events.Keys == t.events.Keys + {run[0].event.eventId};
        assert WithoutRepeats(run, t.events.Keys) == [run[0]] + rest;
        assert ([run[0]] + rest)[1..] == rest;
      }
    }
  }

  ghost predicate Delivered(run: seq<Action>, eventId: string) {
    exists i | 0 <= i < |run| :: run[i].Webhook? && run[i].event.eventId == eventId
  }

  lemma {:induction false} StoredEvents(t: Table, run: seq<Action>, eventId: string)
    ensures eventId in After(t, run).events <==> eventId in t.events || Delivered(run, eventId)
    decreases run
  {
    if run == [] {
    } else {
      StoredEvents(Step(t, run[0]), run[1..], eventId);
      if Delivered(run[1..], eventId) {
        var i :| 0 <= i < |run[1..]| && run[1..][i].Webhook? && run[1..][i].event.eventId == eventId;
        assert run[i + 1].event.eventId == eventId;
      }
      if Delivered(run, eventId) && !(run[0].Webhook? && run[0].event.eventId == eventId) {
        var i :| 0 <= i < |run| && run[i].Webhook? && run[i].event.eventId == eventId;
        assert run[1..][i - 1].event.eventId == eventId;
      }
    }
  }

  /** In a run from an empty event table a delivery is processed exactly when it is the first of its event id. */
  lemma ProcessedIffFirst(t: Table, run: seq<Action>, i: nat)
    requires i < |run| && run[i].Webhook? && t.events == map[]
    ensures Processes(After(t, run[..i]), run[i].event)
            <==> forall j | 0 <= j < i && run[j].Webhook? :: run[j].event.eventId != run[i].event.eventId
  {
    var id := run[i].event.eventId;
    StoredEvents(t, run[..i], id);
    if Delivered(run[..i], id) {
      var j :| 0 <= j < |run[..i]| && run[..i][j].Webhook? && run[..i][j].event.eventId == id;
      assert run[j].event.eventId == id;
    } else {
      forall j | 0 <= j < i && run[j].Webhook? ensures run[j].event.eventId != id {
        assert run[..i][j] == run[j];
      }
    }
  }
}
