/** Boarding happens only with the code issued last, over whole runs. */
module Boarding {
  import opened Basics
  import opened Trips
  import opened TripRuns
  import opened TripHistory

  /** A code handed to the passenger, and when it expires. */
  datatype Code = Code(otp: string, expiresAt: int)

  predicate Issues(db: Db, a: Action, b: nat) {
    a.DoIssueOtp? && a.b == b && Perform(db, a).outcome == Done
  }

  /** The code issued last for booking b during the run. */
  function LastIssued(run: seq<Action>, b: nat): Option<Code> {
    if run == [] then None
    else
      var front, a := run[..|run| - 1], run[|run| - 1];
      if Issues(After(START, front).db, a, b)
      then Some(Code(a.otp, a.now + a.life))
      else LastIssued(front, b)
  }

  /** The stored hash and expiry are those of the last code, or have been cleared. */
  ghost predicate HoldsLastCode(row: Booking, b: nat, last: Option<Code>) {
    (row.otpHash.Some? || row.otpExpiresAt.Some?) ==>
      && last.Some?
      && row.otpHash == Some((b, last.value.otp))
      && row.otpExpiresAt == Some(last.value.expiresAt)
  }

  /** A step that does not issue a code for booking b keeps its stored code or clears it. */
  lemma StoredCodeKept(db: Db, a: Action, b: nat)
    requires b < |db.bookings| && b < |Perform(db, a).db.bookings| && !Issues(db, a, b)
    ensures var was, now := db.bookings[b], Perform(db, a).db.bookings[b];
            || (now.otpHash == was.otpHash && now.otpExpiresAt == was.otpExpiresAt)
            || (now.otpHash == None && now.otpExpiresAt == None)
  {
  }

  /** A new booking has no code. */
  lemma NewRowHasNoCode(db: Db, a: Action, b: nat)
    requires |db.bookings| <= b < |Perform(db, a).db.bookings|
    ensures Perform(db, a).db.bookings[b].otpHash == None && Perform(db, a).db.bookings[b].otpExpiresAt == None
    ensures Perform(db, a).db.bookings[b].boardedAt == None
  {
  }

  lemma StepHoldsLastCode(run: seq<Action>, b: nat)
    requires run != [] && b < |After(START, run).db.bookings|
    requires var before := After(START, run[..|run| - 1]).db;
             b < |before.bookings| ==> HoldsLastCode(before.bookings[b], b, LastIssued(run[..|run| - 1], b))
    ensures HoldsLastCode(After(START, run).db.bookings[b], b, LastIssued(run, b))
  {
    var db, a := After(START, run[..|run| - 1]).db, run[|run| - 1];
    if b >= |db.bookings| {
      NewRowHasNoCode(db, a, b);
    } else if !Issues(db, a, b) {
      StoredCodeKept(db, a, b);
    }
  }

  /** In every reachable state a booking stores the code issued last for it, or none. */
  lemma {:induction false} StoredCodeIsLast(run: seq<Action>, b: nat)
    requires b < |After(START, run).db.bookings|
    ensures HoldsLastCode(After(START, run).db.bookings[b], b, LastIssued(run, b))
  {
    if run == [] {
    } else {
      if b < |After(START, run[..|run| - 1]).db.bookings| {
        StoredCodeIsLast(run[..|run| - 1], b);
      }
      StepHoldsLastCode(run, b);
    }
  }

  /**
   * The last step of the run boards the passenger of booking b: the ride's driver presents the code issued last,
   * before it expires, for a passenger not boarded yet, and the step sets the boarding time.
   */
  ghost predicate BoardsWithLastCode(run: seq<Action>, b: nat) {
    && run != [] && run[|run| - 1].DoVerifyOtp? && run[|run| - 1].b == b
    && var front, a := run[..|run| - 1], run[|run| - 1];
       var db, db', last := After(START, front).db, After(START, run).db, LastIssued(front, b);
       && last.Some? && a.otp == last.value.otp && a.now < last.value.expiresAt
       && Known(db, b) && db.rides[db.bookings[b].ride].driver == a.userId && db.bookings[b].boardedAt.None?
       && b < |db'.bookings| && db'.bookings[b].boardedAt == Some(a.now)
  }

  lemma StepBoards(run: seq<Action>, b: nat)
    requires run != [] && b < |After(START, run).db.bookings|
    requires After(START, run).db.bookings[b].boardedAt.Some?
    requires var before := After(START, run[..|run| - 1]).db;
             b < |before.bookings| ==>
               && before.bookings[b].boardedAt.None?
               && HoldsLastCode(before.bookings[b], b, LastIssued(run[..|run| - 1], b))
    ensures BoardsWithLastCode(run, b)
  {
    var db, a := After(START, run[..|run| - 1]).db, run[|run| - 1];
    if b >= |db.bookings| {
      NewRowHasNoCode(db, a, b);
    } else if !a.DoVerifyOtp? {
      OnlyVerifyBoards(db, a, b);
    }
  }

  lemma OnlyVerifyBoards(db: Db, a: Action, b: nat)
    requires b < |db.bookings| && b < |Perform(db, a).db.bookings| && !a.DoVerifyOtp?
    ensures Perform(db, a).db.bookings[b].boardedAt == db.bookings[b].boardedAt
  {
  }

  /** The step numbered n - 1 boards booking b, at the time the booking carries. */
  ghost predicate BoardedAtStep(run: seq<Action>, n: nat, b: nat, at: Option<int>) {
    0 < n <= |run| && BoardsWithLastCode(run[..n], b) && at == Some(run[n - 1].now)
  }

  lemma StillBoarded(run: seq<Action>, n: nat, b: nat)
    requires LegalRun(run) && run != []
    requires var before := After(START, run[..|run| - 1]).db;
             && b < |before.bookings| && before.bookings[b].boardedAt.Some?
             && BoardedAtStep(run[..|run| - 1], n, b, before.bookings[b].boardedAt)
    ensures b < |After(START, run).db.bookings|
    ensures BoardedAtStep(run, n, b, After(START, run).db.bookings[b].boardedAt)
  {
    var front := run[..|run| - 1];
    var before := After(START, front);
    Reachable(front);
    StepEvolves(before, run[|run| - 1]);
    assert BookingEvolves(before.db.bookings[b], After(START, run).db.bookings[b]);
    assert front[..n] == run[..n];
  }

  /**
   * Whoever is boarded, and so whoever completed a trip, was boarded by a step in which the ride's driver presented
   * the code issued last before it expired; that step set the boarding time the booking still has.
   */
  lemma {:induction false} BoardedOnlyWithLastCode(run: seq<Action>, b: nat)
    requires LegalRun(run) && b < |After(START, run).db.bookings|
    ensures var row := After(START, run).db.bookings[b];
            && (row.status == Completed ==> row.boardedAt.Some?)
            && (row.boardedAt.Some? ==> exists n: nat :: BoardedAtStep(run, n, b, row.boardedAt))
  {
    Reachable(run);
    if run == [] {
    } else if After(START, run).db.bookings[b].boardedAt.Some? {
      var front := run[..|run| - 1];
      var before := After(START, front).db;
      if b < |before.bookings| && before.bookings[b].boardedAt.Some? {
        BoardedOnlyWithLastCode(front, b);
        var n: nat :| BoardedAtStep(front, n, b, before.bookings[b].boardedAt);
        StillBoarded(run, n, b);
      } else {
        if b < |before.bookings| {
          StoredCodeIsLast(front, b);
        }
        StepBoards(run, b);
        assert run[..|run|] == run;
        assert BoardedAtStep(run, |run|, b, After(START, run).db.bookings[b].boardedAt);
      }
    }
  }

  /** Round trip: the code just issued, and no other, boards the passenger until it expires; it is then used up. */
  lemma IssuedCodeBoards(
      db: Db, passenger: nat, driver: nat, b: nat, otp: string, typed: string, issued: int, life: int, now: int)
    requires Known(db, b) && db.rides[db.bookings[b].ride].driver == driver
    requires IssueOtp(db, passenger, b, otp, issued, life).outcome == Done
    ensures var result := VerifyOtp(IssueOtp(db, passenger, b, otp, issued, life).db, driver, b, typed, now);
            && (result.outcome == Done <==> typed == otp && now < issued + life)
            && (result.outcome == Done ==>
                  && result.db.bookings[b]
                     == db.bookings[b].(boardedAt := Some(now), otpHash := None, otpExpiresAt := None)
                  && forall again: nat ::
                       IssueOtp(result.db, passenger, b, otp, again, life).outcome == Raised(BadRequest))
  {
  }
}
