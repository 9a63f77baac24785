/** The session's tables, shared by the services, and the queue they hand payment jobs to. */
module Database {
  import opened Basics
  import opened Trips
  import TripRuns
  import P = Payments

  class Session {
    var rides: seq<Ride>
    var bookings: seq<Booking>
    var payments: map<nat, P.Payment>
    /** Stored provider events, each with the payment it names. */
    var events: map<string, Option<nat>>
    var requests: seq<RideRequest>
    /** (driver, request) pairs a driver has declined. */
    var dismissals: set<(nat, nat)>
    /** Jobs handed to the queue; they are not part of a transaction and survive a rollback. */
    var jobs: seq<P.Job>

    constructor ()
      ensures Rows() == EMPTY && dismissals == {} && jobs == [] && Valid()
    {
      rides, bookings, payments, events, requests := [], [], map[], map[], [];
      dismissals, jobs := {}, [];
    }

    function Rows(): Db
      reads this
    {
      Db(rides, bookings, P.Table(payments, events), requests)
    }

    /** The foreign key from bookings to rides. */
    ghost predicate Linked()
      reads this`rides, this`bookings
    {
      TripRuns.Linked(rides, bookings)
    }

    /** The coherence of rides and bookings, which every operation of the services keeps. */
    ghost predicate Valid()
      reads this`rides, this`bookings
    {
      TripRuns.CoherentRows(rides, bookings)
    }
  }
}
