/**
 * A ride completion that a later booking's payment stops is rolled back, app/services/ride.py, and forgets the captures
 * the provider had granted before it stopped.
 */
module RolledBackCaptures {
  import opened Basics
  import opened Trips
  import opened RefundRetries
  import P = Payments
  import Runs = TripRuns
  import Settlement

  /** The completion asks the provider to capture the payment of booking i, and the provider does. */
  ghost predicate GrantsCapture(db: Db, r: nat, ask: nat -> P.Provider, i: nat) {
    && ToComplete(db, r, i) && i in db.ledger.payments && P.CaptureWorks(db.ledger.payments[i], ask(i))
    && Settlement.ReadyBelow(db, r, ask, i)
  }

  /**
   * A granted capture is forgotten, so that the provider will be asked again, exactly when the payment of a later
   * booking is left uncaptured.
   */
  lemma ForgottenIff(db: Db, user: User, r: nat, ask: nat -> P.Provider, i: nat)
    requires CompleteRide(db, user, r, ask).outcome in {Done, Raised(Conflict)}
    requires r < |db.rides| && user.role == Driver && db.rides[r].driver == user.id && !Finished(db.rides[r])
    requires AllBoarded(db, r) && GrantsCapture(db, r, ask, i)
    ensures var after := CompleteRide(db, user, r, ask).db;
            && i in after.ledger.payments
            && (P.Capturable(after.ledger.payments[i])
                <==> exists k: nat :: i < k && ToComplete(db, r, k) && !Captures(db, k, ask))
  {
    Settlement.CompleteRideAllOrNothing(db, user, r, ask);
    var n := |db.bookings|;
    assert Captures(db, i, ask);
    if Settlement.ReadyBelow(db, r, ask, n) {
      forall k: nat | i < k && ToComplete(db, r, k) ensures Captures(db, k, ask) {
        assert k < n;
      }
    } else {
      var k: nat :| k < n && ToComplete(db, r, k) && !Captures(db, k, ask);
      assert k > i;
    }
  }

  // ---------------------------------------------------------------- a run that does it

  /** A provider that authorizes nothing by itself, and answers a capture as given. */
  function Capturing(answer: Answer<bool>): P.Provider {
    P.Provider(Down, Down, answer, Down)
  }

  const OTHER := User(3, Passenger, true)

  function Authorize(b: nat, eventId: string, reference: string): Event {
    Do(Runs.DoPayment(P.Webhook(P.WebhookEvent(eventId, "payment.authorized", reference, None), Some(b))))
  }

  /** Two passengers are accepted and boarded, and each creates a payment, which the provider then authorizes. */
  const ACCEPTED := [Do(Runs.DoCreateRide(DRIVER, 2, 0, 100)),
                     Do(Runs.DoCreateBooking(PASSENGER, 0)),
                     Do(Runs.DoCreateBooking(OTHER, 0)),
                     Do(Runs.DoUpdateStatus(1, 0, Accepted, Capturing(Down)))]
  const ISSUED := [Do(Runs.DoUpdateStatus(1, 1, Accepted, Capturing(Down))),
                   Do(Runs.DoIssueOtp(2, 0, "a", 0, 10)),
                   Do(Runs.DoIssueOtp(3, 1, "b", 0, 10)),
                   Do(Runs.DoVerifyOtp(1, 0, "a", 5))]
  const PAYING := [Do(Runs.DoVerifyOtp(1, 1, "b", 5)),
                   Do(Runs.DoPayment(P.Create(0, 2, P.Mock, "o0", CHARGE, Some("p0")))),
                   Do(Runs.DoPayment(P.Create(1, 3, P.Mock, "o1", CHARGE, Some("p1")))),
                   Authorize(0, "e0", "p0")]

  function Row(payer: nat, orderId: string, reference: string, status: P.Status): P.Payment {
    P.Payment(payer, P.Mock, orderId, CHARGE, Some(reference), status, None)
  }

  function With(ride: Ride, bookings: seq<Booking>, ledger: P.Table): System {
    System(Db([ride], bookings, ledger, []), [], {}, 3)
  }

  const NO_PAYMENTS := P.Table(map[], map[])

  function Boarded(passenger: nat): Booking {
    NewBooking(0, passenger, Accepted).(boardedAt := Some(5))
  }

  function Coded(b: nat, passenger: nat, code: string): Booking {
    NewBooking(0, passenger, Accepted).(otpHash := Some((b, code)), otpExpiresAt := Some(10))
  }

  function AfterAccepted(): System {
    With(Ride(1, 1, Scheduled, true, 0, 100), [NewBooking(0, 2, Accepted), NewBooking(0, 3, Pending)], NO_PAYMENTS)
  }

  function AfterIssued(): System {
    With(Ride(1, 0, Full, false, 0, 100), [Boarded(2), Coded(1, 3, "b")], NO_PAYMENTS)
  }

  function Paid(first: P.Status, second: P.Status, events: map<string, Option<nat>>): System {
    With(Ride(1, 0, Full, false, 0, 100), [Boarded(2), Boarded(3)],
         P.Table(map[0 := Row(2, "o0", "p0", first), 1 := Row(3, "o1", "p1", second)], events))
  }

  lemma {:induction false} AcceptedState()
    ensures After(EMPTY_SYSTEM, ACCEPTED) == AfterAccepted() && PossibleRun(EMPTY_SYSTEM, ACCEPTED)
  {
    Four(EMPTY_SYSTEM, ACCEPTED[0], ACCEPTED[1], ACCEPTED[2], ACCEPTED[3]);
    assert Queued([]) == [];
    var open := Ride(1, 2, Scheduled, true, 0, 100);
    assert Next(EMPTY_SYSTEM, ACCEPTED[0]) == With(open, [], NO_PAYMENTS);
    assert Next(With(open, [], NO_PAYMENTS), ACCEPTED[1]) == With(open, [NewBooking(0, 2, Pending)], NO_PAYMENTS);
    assert Next(With(open, [NewBooking(0, 2, Pending)], NO_PAYMENTS), ACCEPTED[2])
        == With(open, [NewBooking(0, 2, Pending), NewBooking(0, 3, Pending)], NO_PAYMENTS);
    assert Next(With(open, [NewBooking(0, 2, Pending), NewBooking(0, 3, Pending)], NO_PAYMENTS), ACCEPTED[3])
        == AfterAccepted();
  }

  lemma {:induction false} IssuedState()
    ensures After(AfterAccepted(), ISSUED) == AfterIssued() && PossibleRun(AfterAccepted(), ISSUED)
  {
    Four(AfterAccepted(), ISSUED[0], ISSUED[1], ISSUED[2], ISSUED[3]);
    assert Queued([]) == [];
    var full := Ride(1, 0, Full, false, 0, 100);
    assert Next(AfterAccepted(), ISSUED[0])
        == With(full, [NewBooking(0, 2, Accepted), NewBooking(0, 3, Accepted)], NO_PAYMENTS);
    assert Next(With(full, [NewBooking(0, 2, Accepted), NewBooking(0, 3, Accepted)], NO_PAYMENTS), ISSUED[1])
        == With(full, [Coded(0, 2, "a"), NewBooking(0, 3, Accepted)], NO_PAYMENTS);
    assert Next(With(full, [Coded(0, 2, "a"), NewBooking(0, 3, Accepted)], NO_PAYMENTS), ISSUED[2])
        == With(full, [Coded(0, 2, "a"), Coded(1, 3, "b")], NO_PAYMENTS);
    assert Next(With(full, [Coded(0, 2, "a"), Coded(1, 3, "b")], NO_PAYMENTS), ISSUED[3]) == AfterIssued();
  }

  lemma PaymentsCreated()
    ensures var boarded := Next(AfterIssued(), PAYING[0]);
            && Possible(AfterIssued(), PAYING[0]) && Possible(boarded, PAYING[1])
            && Possible(Next(boarded, PAYING[1]), PAYING[2])
            && Next(Next(boarded, PAYING[1]), PAYING[2]) == Paid(P.Pending, P.Pending, map[])
  {
    assert Queued([]) == [];
    var full, boarded := Ride(1, 0, Full, false, 0, 100), [Boarded(2), Boarded(3)];
    assert Next(AfterIssued(), PAYING[0]) == With(full, boarded, NO_PAYMENTS);
    var one := P.Table(map[0 := Row(2, "o0", "p0", P.Pending)], map[]);
    assert Next(With(full, boarded, NO_PAYMENTS), PAYING[1]) == With(full, boarded, one);
  }

  lemma FirstAuthorized()
    ensures Possible(Paid(P.Pending, P.Pending, map[]), PAYING[3])
    ensures Next(Paid(P.Pending, P.Pending, map[]), PAYING[3])
            == Paid(P.Authorized, P.Pending, map["e0" := Some(0)])
  {
    assert Queued([]) == [];
    assert 0 in Paid(P.Pending, P.Pending, map[]).db.ledger.payments;
  }

  lemma {:induction false} PayingState()
    ensures After(AfterIssued(), PAYING) == Paid(P.Authorized, P.Pending, map["e0" := Some(0)])
    ensures PossibleRun(AfterIssued(), PAYING)
  {
    Four(AfterIssued(), PAYING[0], PAYING[1], PAYING[2], PAYING[3]);
    PaymentsCreated();
    FirstAuthorized();
  }

  /** The provider captures the first payment and is down for the second. */
  function FirstOnly(b: nat): P.Provider {
    Capturing(if b == 0 then Says(true) else Down)
  }

  const COMPLETE := Do(Runs.DoCompleteRide(DRIVER, 0, FirstOnly))

  const BOTH_EVENTS := map["e0" := Some(0), "e1" := Some(1)]

  lemma SecondAuthorized()
    ensures Possible(Paid(P.Authorized, P.Pending, map["e0" := Some(0)]), Authorize(1, "e1", "p1"))
    ensures Next(Paid(P.Authorized, P.Pending, map["e0" := Some(0)]), Authorize(1, "e1", "p1"))
            == Paid(P.Authorized, P.Authorized, BOTH_EVENTS)
  {
    assert Queued([]) == [];
    assert 1 in Paid(P.Authorized, P.Pending, map["e0" := Some(0)]).db.ledger.payments;
  }

  lemma BothAuthorized()
    ensures var s := Paid(P.Authorized, P.Authorized, BOTH_EVENTS);
            && GrantsCapture(s.db, 0, FirstOnly, 0) && AllBoarded(s.db, 0)
            && ToComplete(s.db, 0, 1) && !Captures(s.db, 1, FirstOnly)
  {
  }

  lemma CompletionStops()
    ensures var s := Paid(P.Authorized, P.Authorized, BOTH_EVENTS);
            && Possible(s, COMPLETE)
            && Next(s, COMPLETE) == s.(queue := [Waiting(P.CaptureRetry(1), 0)])
  {
    var db := Paid(P.Authorized, P.Authorized, BOTH_EVENTS).db;
    BothAuthorized();
    assert CaptureJobs(db, 0, FirstOnly, 0) == ([], true);
    assert CaptureJobs(db, 0, FirstOnly, 1).0 == [] && CaptureJobs(db, 0, FirstOnly, 1).1;
    assert CaptureJobs(db, 0, FirstOnly, 2).0 == [P.CaptureRetry(1)] && !CaptureJobs(db, 0, FirstOnly, 2).1;
    assert Queued([P.CaptureRetry(1)]) == [Waiting(P.CaptureRetry(1), 0)];
  }

  lemma {:induction false} Joined(s: System, first: seq<Event>, second: seq<Event>)
    ensures After(s, first + second) == After(After(s, first), second)
    ensures PossibleRun(s, first + second) <==> PossibleRun(s, first) && PossibleRun(After(s, first), second)
  {
    AfterAppend(s, first, second);
    PossibleAppend(s, first, second);
  }

  lemma JoinedOne(s: System, first: seq<Event>, e: Event)
    ensures After(s, first + [e]) == Next(After(s, first), e)
    ensures PossibleRun(s, first + [e]) <==> PossibleRun(s, first) && Possible(After(s, first), e)
  {
    Joined(s, first, [e]);
    AfterCons(After(s, first), e, []);
    assert [e] + [] == [e];
  }

  /** Two accepted and boarded passengers with authorized payments. */
  function ReadyRun(): seq<Event> {
    (ACCEPTED + (ISSUED + PAYING)) + [Authorize(1, "e1", "p1")]
  }

  lemma {:induction false} ReadyState()
    ensures PossibleRun(EMPTY_SYSTEM, ReadyRun())
    ensures After(EMPTY_SYSTEM, ReadyRun()) == Paid(P.Authorized, P.Authorized, BOTH_EVENTS)
  {
    AcceptedState();
    IssuedState();
    PayingState();
    Joined(EMPTY_SYSTEM, ACCEPTED, ISSUED + PAYING);
    Joined(AfterAccepted(), ISSUED, PAYING);
    JoinedOne(EMPTY_SYSTEM, ACCEPTED + (ISSUED + PAYING), Authorize(1, "e1", "p1"));
    SecondAuthorized();
  }

  /**
   * Such a run is possible from the empty system: the provider grants the capture of the first payment, the second one
   * stops the completion, and the next completion is granted the capture of the first payment once more.
   */
  lemma {:induction false} GrantedTwice()
    ensures PossibleRun(EMPTY_SYSTEM, ReadyRun() + [COMPLETE])
    ensures GrantsCapture(After(EMPTY_SYSTEM, ReadyRun()).db, 0, FirstOnly, 0)
    ensures Possible(After(EMPTY_SYSTEM, ReadyRun() + [COMPLETE]), COMPLETE)
    ensures GrantsCapture(After(EMPTY_SYSTEM, ReadyRun() + [COMPLETE]).db, 0, FirstOnly, 0)
  {
    ReadyState();
    BothAuthorized();
    CompletionStops();
    JoinedOne(EMPTY_SYSTEM, ReadyRun(), COMPLETE);
  }
}
