/**
 * The refund a cancelled booking is owed, over runs of the whole system together with the payment jobs of
 * app/services/payment_jobs.py and the worker of app/services/job_queue.py.
 */
module RefundRetries {
  import opened Basics
  import opened Trips
  import P = Payments
  import PaymentOutcomes
  import Runs = TripRuns
  import Settlement

  /** A job waiting for the worker, and how often it has failed. */
  datatype Waiting = Waiting(job: P.Job, attempts: nat)

  /** The rows, the queue, the payments whose refund retry used all its attempts, and JOB_WORKER_MAX_RETRIES. */
  datatype System = System(db: Db, queue: seq<Waiting>, givenUp: set<nat>, maxRetries: int)

  /** A request, or a turn of the worker during which the provider answers as given. */
  datatype Event = Do(action: Runs.Action) | Work(provider: P.Provider)

  function Queued(jobs: seq<P.Job>): seq<Waiting> {
    seq(|jobs|, i requires 0 <= i < |jobs| => Waiting(jobs[i], 0))
  }

  predicate BookingAccepted(db: Db, id: nat) {
    id < |db.bookings| && db.bookings[id].status == Accepted
  }

  /** The payment operation a job's handler calls. */
  function Handler(db: Db, job: P.Job, v: P.Provider): P.Action {
    match job
    case CaptureRetry(id) => P.RetryCapture(id, v)
    case RefundRetry(id) => P.RetryRefund(id, v)
    case Reconciliation(id) => P.Reconcile(id, v, BookingAccepted(db, id))
  }

  /** Whether the handler raises. */
  predicate Raises(db: Db, job: P.Job, v: P.Provider) {
    && job.payment in db.ledger.payments
    && var p := db.ledger.payments[job.payment];
       match job
       case CaptureRetry(_) => P.Capturable(p) && !P.Worked(p, v.lookup, v.capture)
       case RefundRetry(_) => P.Refundable(p) && !P.Worked(p, v.lookup, v.refund)
       case Reconciliation(_) => p.status !in P.TERMINAL && v.report.Down?
  }

  /** What each handler asks for, and when it raises, told from the row and the provider's answers. */
  lemma HandlersRaise(db: Db, id: nat, v: P.Provider)
    requires id in db.ledger.payments
    ensures var p := db.ledger.payments[id];
            var asked := p.reference !in {None, Some("")}
                         || (v.lookup.Says? && v.lookup.value.reference !in {None, Some("")});
            && (Raises(db, P.CaptureRetry(id), v)
                <==> p.status == P.Authorized && !(asked && v.capture == Says(true)))
            && (Raises(db, P.RefundRetry(id), v)
                <==> p.status in {P.Authorized, P.Captured} && !(asked && v.refund == Says(true)))
            && (Raises(db, P.Reconciliation(id), v)
                <==> p.status !in {P.Refunded, P.Failed, P.Cancelled} && v.report.Down?)
    ensures Handler(db, P.CaptureRetry(id), v) == P.RetryCapture(id, v)
    ensures Handler(db, P.RefundRetry(id), v) == P.RetryRefund(id, v)
    ensures Handler(db, P.Reconciliation(id), v)
            == P.Reconcile(id, v, id < |db.bookings| && db.bookings[id].status == Accepted)
  {
    PaymentOutcomes.UsableIff(db.ledger.payments[id].reference);
    if v.lookup.Says? {
      PaymentOutcomes.UsableIff(v.lookup.value.reference);
    }
  }

  /** A failed job goes to the back of the queue until its retries are used up. */
  function Next(s: System, e: Event): System {
    match e
    case Do(a) =>
      var result := Runs.Perform(s.db, a);
      s.(db := result.db, queue := s.queue + Queued(result.jobs))
    case Work(v) =>
      if s.queue == [] then s
      else
        var head := s.queue[0];
        var ran := s.(db := s.db.(ledger := P.Step(s.db.ledger, Handler(s.db, head.job, v))),
                      queue := s.queue[1..] + Queued(P.JobsOf(s.db.ledger, Handler(s.db, head.job, v))));
        if !Raises(s.db, head.job, v) then ran
        else if head.attempts + 1 <= s.maxRetries then
          ran.(queue := ran.queue + [Waiting(head.job, head.attempts + 1)])
        else if head.job.RefundRetry? then ran.(givenUp := s.givenUp + {head.job.payment})
        else ran
  }

  function After(s: System, run: seq<Event>): System
    decreases run
  {
    if run == [] then s else After(Next(s, run[0]), run[1..])
  }

  lemma {:induction false} AfterAppend(s: System, first: seq<Event>, second: seq<Event>)
    ensures After(s, first + second) == After(After(s, first), second)
    decreases first
  {
    if first == [] {
      assert first + second == second;
    } else {
      assert (first + second)[1..] == first[1..] + second;
      AfterAppend(Next(s, first[0]), first[1..], second);
    }
  }

  /**
   * What the services guarantee of an event: valid requests, and the rows a payment operation looks at. Captures and
   * refunds are not requests: they are made by other operations and by jobs.
   */
  ghost predicate Possible(s: System, e: Event) {
    e.Do? ==>
      && Runs.Legal(e.action)
      && (e.action.DoPayment? ==>
            match e.action.action
            case Create(id, payer, _, _, _, _) =>
              && id < |s.db.bookings| && s.db.bookings[id].passenger == payer
              && s.db.bookings[id].status in {Pending, Accepted}
            case Confirm(id, _, accepted) => accepted == BookingAccepted(s.db, id)
            case Reconcile(id, _, accepted) => accepted == BookingAccepted(s.db, id)
            case Webhook(event, found) => P.FoundBy(s.db.ledger.payments, event, found)
            case _ => false)
  }

  ghost predicate PossibleRun(s: System, run: seq<Event>)
    decreases run
  {
    run == [] || (Possible(s, run[0]) && PossibleRun(Next(s, run[0]), run[1..]))
  }

  lemma {:induction false} PossibleAppend(s: System, first: seq<Event>, second: seq<Event>)
    ensures PossibleRun(s, first + second) <==> PossibleRun(s, first) && PossibleRun(After(s, first), second)
    decreases first
  {
    if first == [] {
      assert first + second == second;
    } else {
      assert (first + second)[1..] == first[1..] + second;
      PossibleAppend(Next(s, first[0]), first[1..], second);
    }
  }

  // ---------------------------------------------------------------- who still owes a refund

  ghost predicate Retries(queue: seq<Waiting>, id: nat) {
    exists i :: 0 <= i < |queue| && queue[i].job == P.RefundRetry(id)
  }

  /** The payment is final, or a refund retry of it is queued, or its retries have been used up. */
  ghost predicate Covered(s: System, id: nat) {
    && id in s.db.ledger.payments
    && (s.db.ledger.payments[id].status in P.TERMINAL || Retries(s.queue, id) || id in s.givenUp)
  }

  /**
   * The worker takes the only refund retry of a payment that is pending at that moment: the handler's guard lets it
   * return without a refund and without an error.
   */
  ghost predicate Drops(s: System, e: Event, id: nat) {
    && e.Work? && s.queue != [] && s.queue[0].job == P.RefundRetry(id)
    && id in s.db.ledger.payments && s.db.ledger.payments[id].status == P.Pending
    && !Retries(s.queue[1..], id) && id !in s.givenUp
  }

  lemma RetriesInPart(queue: seq<Waiting>, more: seq<Waiting>, id: nat)
    ensures Retries(queue + more, id) <==> Retries(queue, id) || Retries(more, id)
  {
    if Retries(queue, id) {
      var i :| 0 <= i < |queue| && queue[i].job == P.RefundRetry(id);
      assert (queue + more)[i].job == P.RefundRetry(id);
    }
    if Retries(more, id) {
      var i :| 0 <= i < |more| && more[i].job == P.RefundRetry(id);
      assert (queue + more)[|queue| + i].job == P.RefundRetry(id);
    }
    if Retries(queue + more, id) {
      var i :| 0 <= i < |queue + more| && (queue + more)[i].job == P.RefundRetry(id);
      assert i < |queue| ==> queue[i].job == P.RefundRetry(id);
      assert i >= |queue| ==> more[i - |queue|].job == P.RefundRetry(id);
    }
  }

  lemma RetriesAtHead(queue: seq<Waiting>, id: nat)
    requires queue != []
    ensures Retries(queue, id) <==> queue[0].job == P.RefundRetry(id) || Retries(queue[1..], id)
  {
    RetriesInPart([queue[0]], queue[1..], id);
    assert [queue[0]] + queue[1..] == queue;
    assert queue[0].job == P.RefundRetry(id) ==> [queue[0]][0].job == P.RefundRetry(id);
  }

  lemma DoCovers(s: System, a: Runs.Action, id: nat)
    requires Covered(s, id)
    ensures Covered(Next(s, Do(a)), id)
  {
    Settlement.StepIsPaymentRun(s.db, a);
    P.TermsAreFinal(s.db.ledger, Settlement.Operations(s.db, a), id, "");
    if s.db.ledger.payments[id].status in P.TERMINAL {
      P.TerminalIsFinal(s.db.ledger, Settlement.Operations(s.db, a), id);
    }
    RetriesInPart(s.queue, Queued(Runs.Perform(s.db, a).jobs), id);
  }

  /** No handler queues a refund retry, so only the turn on the retry itself can take it out of the queue. */
  lemma WorkQueue(s: System, v: P.Provider, id: nat)
    requires s.queue != []
    ensures var head := s.queue[0];
            var again := Raises(s.db, head.job, v) && head.attempts + 1 <= s.maxRetries;
            Retries(Next(s, Work(v)).queue, id)
            <==> Retries(s.queue[1..], id) || (again && head.job == P.RefundRetry(id))
  {
    var head := s.queue[0];
    var jobs := P.JobsOf(s.db.ledger, Handler(s.db, head.job, v));
    assert !Retries(Queued(jobs), id);
    RetriesInPart(s.queue[1..], Queued(jobs), id);
    var last := Waiting(head.job, head.attempts + 1);
    RetriesInPart(s.queue[1..] + Queued(jobs), [last], id);
    assert Retries([last], id) <==> [last][0].job == P.RefundRetry(id);
  }

  lemma WorkCovers(s: System, v: P.Provider, id: nat)
    requires Covered(s, id)
    ensures id in Next(s, Work(v)).db.ledger.payments
    ensures Covered(Next(s, Work(v)), id) <==> !Drops(s, Work(v), id)
  {
    if s.queue != [] {
      var head := s.queue[0];
      P.StepAbsorbs(s.db.ledger, Handler(s.db, head.job, v), id);
      RetriesAtHead(s.queue, id);
      WorkQueue(s, v, id);
    }
  }

  /** One event ends the coverage of a refund exactly when it drops it. */
  lemma CoverageEndsIff(s: System, e: Event, id: nat)
    requires Covered(s, id)
    ensures Covered(Next(s, e), id) <==> !Drops(s, e, id)
  {
    match e
    case Do(a) => DoCovers(s, a, id);
    case Work(v) => WorkCovers(s, v, id);
  }

  ghost predicate AlwaysCovered(s: System, run: seq<Event>, id: nat)
    decreases run
  {
    Covered(s, id) && (run == [] || AlwaysCovered(Next(s, run[0]), run[1..], id))
  }

  ghost predicate NeverDrops(s: System, run: seq<Event>, id: nat)
    decreases run
  {
    run == [] || (!Drops(s, run[0], id) && NeverDrops(Next(s, run[0]), run[1..], id))
  }

  /** A refund that is covered stays so throughout a run exactly when no event of the run drops it. */
  lemma {:induction false} CoveredThroughoutIff(s: System, run: seq<Event>, id: nat)
    requires Covered(s, id)
    ensures AlwaysCovered(s, run, id) <==> NeverDrops(s, run, id)
    decreases run
  {
    if run == [] {
    } else {
      CoverageEndsIff(s, run[0], id);
      if !Drops(s, run[0], id) {
        CoveredThroughoutIff(Next(s, run[0]), run[1..], id);
      }
    }
  }

  // ---------------------------------------------------------------- cancelled bookings

  /** The event cancels booking b through `update_status` while its payment is authorized or captured. */
  ghost predicate OwesRefund(s: System, e: Event, b: nat) {
    && e.Do? && e.action.DoUpdateStatus? && e.action.b == b
    && e.action.status in {CancelledByDriver, CancelledByPassenger}
    && b in s.db.ledger.payments && P.Refundable(s.db.ledger.payments[b])
    && Runs.Perform(s.db, e.action).outcome == Done
  }

  lemma CancellationCovers(s: System, e: Event, b: nat)
    requires OwesRefund(s, e, b)
    ensures Covered(Next(s, e), b) && Next(s, e).db.ledger.payments[b].status != P.Pending
  {
    var a := e.action;
    var result := Runs.Perform(s.db, a);
    Settlement.CancelRefundsOrRetries(s.db, a.userId, b, a.status, a.provider);
    P.StepKeepsRank(s.db.ledger, P.Refund(b, a.provider), b);
    if P.RefundRetry(b) in result.jobs {
      var i :| 0 <= i < |result.jobs| && result.jobs[i] == P.RefundRetry(b);
      assert Queued(result.jobs)[i].job == P.RefundRetry(b);
    }
    RetriesInPart(s.queue, Queued(result.jobs), b);
  }

  /** In this event the provider reports payment `id` as pending to a reconciliation. */
  ghost predicate ReportsPending(s: System, e: Event, id: nat) {
    match e
    case Do(DoPayment(Reconcile(i, v, _))) => i == id && v.report.Says? && v.report.value.status == P.Pending
    case Do(_) => false
    case Work(v) =>
      s.queue != [] && s.queue[0].job == P.Reconciliation(id) && v.report.Says? && v.report.value.status == P.Pending
  }

  ghost predicate NeverReportsPending(s: System, run: seq<Event>, id: nat)
    decreases run
  {
    run == [] || (!ReportsPending(s, run[0], id) && NeverReportsPending(Next(s, run[0]), run[1..], id))
  }

  /** The run has no reconciliation of `id` that is told pending. */
  ghost predicate KeepsStarted(run: seq<P.Action>, id: nat) {
    forall i | 0 <= i < |run| ::
      run[i].Reconcile? && run[i].id == id && run[i].provider.report.Says? ==>
        run[i].provider.report.value.status != P.Pending
  }

  lemma StepStaysStarted(t: P.Table, a: P.Action, id: nat)
    requires id in t.payments && t.payments[id].status != P.Pending && KeepsStarted([a], id)
    ensures id in P.Step(t, a).payments && P.Step(t, a).payments[id].status != P.Pending
  {
    assert [a][0] == a;
    if !a.Reconcile? {
      P.StepKeepsRank(t, a, id);
    }
  }

  lemma {:induction false} StaysStarted(t: P.Table, run: seq<P.Action>, id: nat)
    requires id in t.payments && t.payments[id].status != P.Pending && KeepsStarted(run, id)
    ensures id in P.After(t, run).payments && P.After(t, run).payments[id].status != P.Pending
    decreases run
  {
    if run == [] {
    } else {
      StepStaysStarted(t, run[0], id);
      StaysStarted(P.Step(t, run[0]), run[1..], id);
    }
  }

  lemma {:induction false} CapturesOnly(db: Db, r: nat, ask: nat -> P.Provider, n: nat)
    ensures forall i | 0 <= i < |Captured(db, r, ask, n)| :: Captured(db, r, ask, n)[i].Capture?
  {
    if n == 0 {
    } else {
      CapturesOnly(db, r, ask, n - 1);
    }
  }

  lemma OperationsKeepStarted(s: System, a: Runs.Action, id: nat)
    requires !ReportsPending(s, Do(a), id)
    ensures KeepsStarted(Settlement.Operations(s.db, a), id)
  {
    if a.DoCompleteRide? {
      CapturesOnly(s.db, a.r, a.ask, |s.db.bookings|);
    }
  }

  lemma EventStaysStarted(s: System, e: Event, id: nat)
    requires id in s.db.ledger.payments && s.db.ledger.payments[id].status != P.Pending && !ReportsPending(s, e, id)
    ensures id in Next(s, e).db.ledger.payments && Next(s, e).db.ledger.payments[id].status != P.Pending
  {
    match e
    case Do(a) =>
      OperationsKeepStarted(s, a, id);
      Settlement.StepIsPaymentRun(s.db, a);
      StaysStarted(s.db.ledger, Settlement.Operations(s.db, a), id);
    case Work(v) =>
      if s.queue != [] {
        StepStaysStarted(s.db.ledger, Handler(s.db, s.queue[0].job, v), id);
      }
  }

  lemma {:induction false} NothingDropped(s: System, run: seq<Event>, id: nat)
    requires id in s.db.ledger.payments && s.db.ledger.payments[id].status != P.Pending
    requires NeverReportsPending(s, run, id)
    ensures NeverDrops(s, run, id)
    decreases run
  {
    if run == [] {
    } else {
      EventStaysStarted(s, run[0], id);
      NothingDropped(Next(s, run[0]), run[1..], id);
    }
  }

  /**
   * After a booking with an authorized or captured payment is cancelled through `update_status`, its payment is, at
   * every point of any further run, final or queued for a refund retry or out of retries, exactly as long as no turn
   * of the worker drops the retry; and none does if the provider never reports the payment as pending again.
   */
  lemma {:induction false} RefundIsNotForgotten(s: System, cancel: Event, run: seq<Event>, b: nat)
    requires OwesRefund(s, cancel, b)
    ensures AlwaysCovered(Next(s, cancel), run, b) <==> NeverDrops(Next(s, cancel), run, b)
    ensures NeverReportsPending(Next(s, cancel), run, b) ==> AlwaysCovered(Next(s, cancel), run, b)
  {
    CancellationCovers(s, cancel, b);
    CoveredThroughoutIff(Next(s, cancel), run, b);
    if NeverReportsPending(Next(s, cancel), run, b) {
      NothingDropped(Next(s, cancel), run, b);
    }
  }

  /** The provider is unreachable for the lookup and does not grant a refund. */
  predicate Refuses(v: P.Provider) {
    v.lookup.Down? && v.refund != Says(true)
  }

  /** A queue with one refund retry that has failed k times, of a payment authorized or captured. */
  ghost predicate Retrying(s: System, id: nat, k: nat) {
    && s.queue == [Waiting(P.RefundRetry(id), k)] && k <= s.maxRetries && id !in s.givenUp
    && id in s.db.ledger.payments && s.db.ledger.payments[id].status in {P.Authorized, P.Captured}
  }

  lemma RetryRefused(s: System, id: nat, k: nat, v: P.Provider)
    requires Retrying(s, id, k) && Refuses(v)
    ensures k < s.maxRetries ==> Retrying(Next(s, Work(v)), id, k + 1) && Next(s, Work(v)).maxRetries == s.maxRetries
    ensures k == s.maxRetries ==> Next(s, Work(v)).queue == [] && Next(s, Work(v)).givenUp == s.givenUp + {id}
  {
    assert Queued(P.JobsOf(s.db.ledger, Handler(s.db, P.RefundRetry(id), v))) == [];
  }

  lemma {:induction false} StillRetrying(s: System, id: nat, k: nat, answers: seq<P.Provider>)
    requires Retrying(s, id, k) && k + |answers| <= s.maxRetries
    requires forall i | 0 <= i < |answers| :: Refuses(answers[i])
    ensures Retrying(After(s, Turns(answers)), id, k + |answers|)
    ensures After(s, Turns(answers)).maxRetries == s.maxRetries
    decreases |answers|
  {
    if answers == [] {
    } else {
      RetryRefused(s, id, k, answers[0]);
      assert Turns(answers)[1..] == Turns(answers[1..]);
      StillRetrying(Next(s, Work(answers[0])), id, k + 1, answers[1..]);
    }
  }

  /**
   * A refund that is always refused is tried max_retries + 1 times in all: it is still queued after any fewer turns,
   * and given up after that many.
   */
  lemma {:induction false} RetriesUsedUp(s: System, id: nat, answers: seq<P.Provider>)
    requires Retrying(s, id, 0) && |answers| == s.maxRetries + 1
    requires forall i | 0 <= i < |answers| :: Refuses(answers[i])
    ensures forall n: nat | n < |answers| :: Retrying(After(s, Turns(answers[..n])), id, n)
    ensures After(s, Turns(answers)).queue == [] && id in After(s, Turns(answers)).givenUp
  {
    forall n: nat | n < |answers| ensures Retrying(After(s, Turns(answers[..n])), id, n) {
      StillRetrying(s, id, 0, answers[..n]);
    }
    var front, last := answers[..s.maxRetries], answers[s.maxRetries];
    StillRetrying(s, id, 0, front);
    RetryRefused(After(s, Turns(front)), id, s.maxRetries, last);
    assert Turns(answers) == Turns(front) + [Work(last)];
    AfterAppend(s, Turns(front), [Work(last)]);
    AfterCons(After(s, Turns(front)), Work(last), []);
    assert [Work(last)] + [] == [Work(last)];
  }

  function Turns(answers: seq<P.Provider>): seq<Event> {
    seq(|answers|, i requires 0 <= i < |answers| => Work(answers[i]))
  }

  // ---------------------------------------------------------------- a refund that is forgotten

  const DRIVER := User(1, Driver, true)
  const PASSENGER := User(2, Passenger, true)

  /** A provider that is down but for the status it reports. */
  function Reporting(status: P.Status): P.Provider {
    P.Provider(Says(P.Snapshot(status, None)), Down, Down, Down)
  }

  const EMPTY_SYSTEM := System(EMPTY, [], {}, 3)
  const CHARGE := P.Charge(100, 100, "INR")

  /** A passenger books and pays, and the payment is captured. */
  const PAID := [Do(Runs.DoCreateRide(DRIVER, 1, 0, 100)),
                 Do(Runs.DoCreateBooking(PASSENGER, 0)),
                 Do(Runs.DoPayment(P.Create(0, 2, P.Mock, "order", CHARGE, Some("pay")))),
                 Do(Runs.DoPayment(P.Confirm(0, Reporting(P.Captured), false)))]

  const CANCEL := Do(Runs.DoUpdateStatus(2, 0, CancelledByPassenger, Reporting(P.Captured)))

  /** The refund fails once more, the provider reports the payment as pending, the retry returns, and it is captured. */
  const FORGOTTEN := [Work(Reporting(P.Captured)), Work(Reporting(P.Pending)), Work(Reporting(P.Captured)),
                      Do(Runs.DoPayment(P.Confirm(0, Reporting(P.Captured), false)))]

  /** The state once the booking and its payment exist. */
  function StateWith(booking: BookingStatus, status: P.Status, reason: Option<P.Reason>, queue: seq<Waiting>): System {
    var payment := P.Payment(2, P.Mock, "order", CHARGE, Some("pay"), status, reason);
    var db := Db([Ride(1, 1, Scheduled, true, 0, 100)], [NewBooking(0, 2, booking)],
                 P.Table(map[0 := payment], map[]), []);
    System(db, queue, {}, 3)
  }

  lemma AfterCons(s: System, e: Event, rest: seq<Event>)
    ensures After(s, [e] + rest) == After(Next(s, e), rest)
    ensures PossibleRun(s, [e] + rest) <==> Possible(s, e) && PossibleRun(Next(s, e), rest)
  {
    assert ([e] + rest)[1..] == rest;
  }

  lemma Four(s: System, a: Event, b: Event, c: Event, d: Event)
    ensures After(s, [a, b, c, d]) == Next(Next(Next(Next(s, a), b), c), d)
    ensures PossibleRun(s, [a, b, c, d])
            <==> && Possible(s, a) && Possible(Next(s, a), b) && Possible(Next(Next(s, a), b), c)
                 && Possible(Next(Next(Next(s, a), b), c), d)
  {
    AfterCons(s, a, [b, c, d]);
    AfterCons(Next(s, a), b, [c, d]);
    AfterCons(Next(Next(s, a), b), c, [d]);
    AfterCons(Next(Next(Next(s, a), b), c), d, []);
    assert [a] + [b, c, d] == [a, b, c, d] && [b] + [c, d] == [b, c, d] && [c] + [d] == [c, d] && [d] + [] == [d];
  }

  lemma BookedState()
    ensures Next(Next(EMPTY_SYSTEM, PAID[0]), PAID[1])
            == System(Db([Ride(1, 1, Scheduled, true, 0, 100)], [NewBooking(0, 2, BookingStatus.Pending)],
                         P.Table(map[], map[]), []),
                      [], {}, 3)
  {
    assert Queued([]) == [];
  }

  lemma PaidState()
    ensures After(EMPTY_SYSTEM, PAID) == StateWith(BookingStatus.Pending, P.Captured, None, [])
    ensures PossibleRun(EMPTY_SYSTEM, PAID)
  {
    Four(EMPTY_SYSTEM, PAID[0], PAID[1], PAID[2], PAID[3]);
    BookedState();
    var booked := Next(Next(EMPTY_SYSTEM, PAID[0]), PAID[1]);
    assert Next(booked, PAID[2]) == StateWith(BookingStatus.Pending, P.Pending, None, []);
  }

  const RETRY := P.RefundRetry(0)
  const RECONCILE := P.Reconciliation(0)

  lemma CancelledState()
    ensures Next(StateWith(BookingStatus.Pending, P.Captured, None, []), CANCEL)
            == StateWith(CancelledByPassenger, P.Captured, Some(P.RefundFailedRetryScheduled),
                         [Waiting(RETRY, 0), Waiting(RECONCILE, 0)])
  {
    assert Queued([RETRY, RECONCILE]) == [Waiting(RETRY, 0), Waiting(RECONCILE, 0)];
  }

  lemma RetryFails()
    ensures Next(StateWith(CancelledByPassenger, P.Captured, Some(P.RefundFailedRetryScheduled),
                           [Waiting(RETRY, 0), Waiting(RECONCILE, 0)]),
                 FORGOTTEN[0])
            == StateWith(CancelledByPassenger, P.Captured, Some(P.RefundFailed),
                         [Waiting(RECONCILE, 0), Waiting(RETRY, 1)])
  {
  }

  lemma ReportedPending()
    ensures Next(StateWith(CancelledByPassenger, P.Captured, Some(P.RefundFailed),
                           [Waiting(RECONCILE, 0), Waiting(RETRY, 1)]),
                 FORGOTTEN[1])
            == StateWith(CancelledByPassenger, P.Pending, None, [Waiting(RETRY, 1)])
  {
  }

  lemma RetryReturns()
    ensures Next(StateWith(CancelledByPassenger, P.Pending, None, [Waiting(RETRY, 1)]), FORGOTTEN[2])
            == StateWith(CancelledByPassenger, P.Pending, None, [])
  {
  }

  lemma ConfirmedAgain()
    ensures Next(StateWith(CancelledByPassenger, P.Pending, None, []), FORGOTTEN[3])
            == StateWith(CancelledByPassenger, P.Captured, None, [])
  {
  }

  lemma ForgottenRun()
    ensures After(StateWith(CancelledByPassenger, P.Captured, Some(P.RefundFailedRetryScheduled),
                            [Waiting(RETRY, 0), Waiting(RECONCILE, 0)]),
                  FORGOTTEN)
            == StateWith(CancelledByPassenger, P.Captured, None, [])
    ensures PossibleRun(StateWith(CancelledByPassenger, P.Captured, Some(P.RefundFailedRetryScheduled),
                                  [Waiting(RETRY, 0), Waiting(RECONCILE, 0)]),
                        FORGOTTEN)
  {
    Four(StateWith(CancelledByPassenger, P.Captured, Some(P.RefundFailedRetryScheduled),
                   [Waiting(RETRY, 0), Waiting(RECONCILE, 0)]),
         FORGOTTEN[0], FORGOTTEN[1], FORGOTTEN[2], FORGOTTEN[3]);
    RetryFails();
    ReportedPending();
    RetryReturns();
    ConfirmedAgain();
  }

  lemma {:induction false} CancelledRun()
    ensures After(StateWith(BookingStatus.Pending, P.Captured, None, []), [CANCEL] + FORGOTTEN)
            == StateWith(CancelledByPassenger, P.Captured, None, [])
    ensures PossibleRun(StateWith(BookingStatus.Pending, P.Captured, None, []), [CANCEL] + FORGOTTEN)
  {
    AfterCons(StateWith(BookingStatus.Pending, P.Captured, None, []), CANCEL, FORGOTTEN);
    CancelledState();
    ForgottenRun();
  }

  lemma CancellationOwes()
    ensures OwesRefund(StateWith(BookingStatus.Pending, P.Captured, None, []), CANCEL, 0)
    ensures !Covered(StateWith(CancelledByPassenger, P.Captured, None, []), 0)
  {
  }

  /**
   * A refund can be forgotten, in a possible run from the empty system: after a captured payment of a cancelled booking
   * was owed its refund, it is left captured, with no job queued and no retry used up, because the provider called it
   * pending while its retry was queued.
   */
  lemma {:induction false} RefundCanBeForgotten()
    ensures PossibleRun(EMPTY_SYSTEM, PAID + ([CANCEL] + FORGOTTEN))
    ensures OwesRefund(After(EMPTY_SYSTEM, PAID), CANCEL, 0)
    ensures After(EMPTY_SYSTEM, PAID + ([CANCEL] + FORGOTTEN)) == StateWith(CancelledByPassenger, P.Captured, None, [])
    ensures !Covered(StateWith(CancelledByPassenger, P.Captured, None, []), 0)
  {
    PaidState();
    CancellationOwes();
    CancelledRun();
    AfterAppend(EMPTY_SYSTEM, PAID, [CANCEL] + FORGOTTEN);
    PossibleAppend(EMPTY_SYSTEM, PAID, [CANCEL] + FORGOTTEN);
  }
}
