/** The retrying job queue of app/services/job_queue.py: one FIFO worker, or inline execution. */
module JobQueue {
  import opened Basics

  /** `handler(n)` says whether the handler succeeds when it is run with `attempts == n`. */
  datatype Job = Job(name: string, handler: nat -> bool, attempts: nat, maxRetries: int)

  datatype EventStatus = Queued | Running | Success | Retry | Failed

  /** The error is set on failed jobs: the message is made of the job's name and its attempts. */
  datatype Event = Event(name: string, status: EventStatus, attempts: nat, maxRetries: int, error: Option<JobError>)

  datatype JobError = FailedAfter(name: string, attempts: nat)

  function EventOf(job: Job, status: EventStatus): Event {
    Event(job.name, status, job.attempts, job.maxRetries,
          if status == Failed then Some(FailedAfter(job.name, job.attempts)) else None)
  }

  /** How one job ended: how often its handler ran, and whether the last run succeeded. */
  datatype Verdict = Verdict(name: string, runs: nat, succeeded: bool)

  /** The queue's counters, the back-off slept so far in units of the retry delay, and the finished jobs. */
  datatype Totals = Totals(success: nat, retry: nat, failed: nat, backoff: nat, verdicts: multiset<Verdict>) {
    function Plus(other: Totals): Totals {
      Totals(success + other.success, retry + other.retry, failed + other.failed,
             backoff + other.backoff, verdicts + other.verdicts)
    }
  }

  lemma PlusAssociates(a: Totals, b: Totals, c: Totals)
    ensures a.Plus(b).Plus(c) == a.Plus(b.Plus(c))
  {
  }

  lemma PlusSwaps(a: Totals, b: Totals, c: Totals)
    ensures a.Plus(c.Plus(b)) == a.Plus(b).Plus(c)
  {
  }

  lemma PlusZero(a: Totals)
    ensures a.Plus(ZERO) == a
  {
  }

  const ZERO := Totals(0, 0, 0, 0, multiset{})

  const RECENT_EVENTS := 25

  function Retried(job: Job): Job {
    job.(attempts := job.attempts + 1)
  }

  /** Whether a run of the handler is followed by another one. */
  predicate RunsAgain(job: Job) {
    !job.handler(job.attempts) && job.attempts + 1 <= job.maxRetries
  }

  /** What one run of the handler adds to the totals. */
  function Gain(job: Job): Totals {
    if job.handler(job.attempts) then
      Totals(1, 0, 0, 0, multiset{Verdict(job.name, job.attempts + 1, true)})
    else if RunsAgain(job) then
      Totals(0, 1, 0, job.attempts + 1, multiset{})
    else
      Totals(0, 0, 1, 0, multiset{Verdict(job.name, job.attempts + 1, false)})
  }

  /** What running the job to its end adds to the totals. */
  function Fate(job: Job): Totals
    decreases job.maxRetries - job.attempts
  {
    if RunsAgain(job) then Gain(job).Plus(Fate(Retried(job))) else Gain(job)
  }

  function FateAll(jobs: seq<Job>): Totals {
    if jobs == [] then ZERO else Fate(jobs[0]).Plus(FateAll(jobs[1..]))
  }

  lemma {:induction false} FateAllAppend(jobs: seq<Job>, job: Job)
    ensures FateAll(jobs + [job]) == FateAll(jobs).Plus(Fate(job))
  {
    if jobs == [] {
      assert [job][1..] == [];
    } else {
      assert (jobs + [job])[1..] == jobs[1..] + [job];
      FateAllAppend(jobs[1..], job);
      PlusAssociates(Fate(jobs[0]), FateAll(jobs[1..]), Fate(job));
    }
  }

  /** The runs a job may still need: max_retries + 1 - attempts, and at least the one it is queued for. */
  function Budget(job: Job): nat {
    Max(1, job.maxRetries + 1 - job.attempts)
  }

  function BudgetAll(jobs: seq<Job>): nat {
    if jobs == [] then 0 else Budget(jobs[0]) + BudgetAll(jobs[1..])
  }

  lemma {:induction false} BudgetAllAppend(jobs: seq<Job>, job: Job)
    ensures BudgetAll(jobs + [job]) == BudgetAll(jobs) + Budget(job)
  {
    if jobs == [] {
      assert [job][1..] == [];
    } else {
      assert (jobs + [job])[1..] == jobs[1..] + [job];
      BudgetAllAppend(jobs[1..], job);
    }
  }

  /** One turn of the worker: the jobs left, a failed job with retries going to the back. */
  function Turn(jobs: seq<Job>): seq<Job>
    requires jobs != []
  {
    var job := jobs[0];
    if RunsAgain(job) then jobs[1..] + [Retried(job)] else jobs[1..]
  }

  lemma BudgetDecreases(jobs: seq<Job>)
    requires jobs != []
    ensures BudgetAll(Turn(jobs)) < BudgetAll(jobs)
  {
    BudgetAllAppend(jobs[1..], Retried(jobs[0]));
  }

  lemma TurnConserves(jobs: seq<Job>)
    requires jobs != []
    ensures Gain(jobs[0]).Plus(FateAll(Turn(jobs))) == FateAll(jobs)
  {
    if RunsAgain(jobs[0]) {
      FateAllAppend(jobs[1..], Retried(jobs[0]));
      PlusSwaps(Gain(jobs[0]), Fate(Retried(jobs[0])), FateAll(jobs[1..]));
    }
  }

  /** The totals the worker adds while it empties the queue. */
  function Drain(jobs: seq<Job>): Totals
    decreases BudgetAll(jobs)
  {
    if jobs == [] then ZERO
    else
      BudgetDecreases(jobs);
      Gain(jobs[0]).Plus(Drain(Turn(jobs)))
  }

  /**
   * Worker and inline execution agree: draining the FIFO queue, with failed jobs going to the back, gives the
   * same counters, the same back-off and the same end of every job as running each job to its end in turn.
   */
  lemma {:induction false} DrainIsInline(jobs: seq<Job>)
    ensures Drain(jobs) == FateAll(jobs)
    decreases BudgetAll(jobs)
  {
    if jobs == [] {
    } else {
      BudgetDecreases(jobs);
      DrainIsInline(Turn(jobs));
      TurnConserves(jobs);
    }
  }

  /** The events of one run of the handler; a retried job is queued again. */
  function GainLog(job: Job): seq<Event> {
    [EventOf(job, Running)] +
    if job.handler(job.attempts) then [EventOf(job, Success)]
    else if RunsAgain(job) then [EventOf(Retried(job), Retry), EventOf(Retried(job), Queued)]
    else [EventOf(Retried(job), Failed)]
  }

  /** The events of the job until it ends. */
  function FateLog(job: Job): seq<Event>
    decreases job.maxRetries - job.attempts
  {
    GainLog(job) + if RunsAgain(job) then FateLog(Retried(job)) else []
  }

  function ExecuteLog(job: Job, inline: bool): seq<Event> {
    if inline then FateLog(job) else GainLog(job)
  }

  function EnqueueLog(job: Job, inline: bool): seq<Event> {
    [EventOf(job, Queued)] + if inline then FateLog(job) else []
  }

  /** The events after the first one of a run that raises. */
  function FailureLog(job: Job, inline: bool): seq<Event> {
    if RunsAgain(job) then [EventOf(Retried(job), Retry)] + EnqueueLog(Retried(job), inline)
    else [EventOf(Retried(job), Failed)]
  }

  lemma FailureLogIs(job: Job, inline: bool)
    requires !job.handler(job.attempts)
    ensures ExecuteLog(job, inline) == [EventOf(job, Running)] + FailureLog(job, inline)
  {
    if RunsAgain(job) {
      var again := Retried(job);
      var more := if inline then FateLog(again) else [];
      assert EnqueueLog(again, inline) == [EventOf(again, Queued)] + more;
      assert ExecuteLog(job, inline) == GainLog(job) + more;
    }
  }

  lemma SuccessLogIs(job: Job, inline: bool)
    requires job.handler(job.attempts)
    ensures ExecuteLog(job, inline) == [EventOf(job, Running)] + [EventOf(job, Success)]
  {
  }

  lemma LogAssociates(a: seq<Event>, b: seq<Event>, c: seq<Event>)
    ensures a + b + c == a + (b + c)
  {
  }

  function FateLogAll(jobs: seq<Job>): seq<Event> {
    if jobs == [] then [] else FateLog(jobs[0]) + FateLogAll(jobs[1..])
  }

  /** The events the worker records while it empties the queue. */
  function DrainLog(jobs: seq<Job>): seq<Event>
    decreases BudgetAll(jobs)
  {
    if jobs == [] then []
    else
      BudgetDecreases(jobs);
      GainLog(jobs[0]) + DrainLog(Turn(jobs))
  }

  lemma {:induction false} FateLogAllAppend(jobs: seq<Job>, job: Job)
    ensures FateLogAll(jobs + [job]) == FateLogAll(jobs) + FateLog(job)
  {
    if jobs == [] {
      assert [job][1..] == [];
      assert FateLogAll([job]) == FateLog(job) + [];
    } else {
      assert (jobs + [job])[1..] == jobs[1..] + [job];
      FateLogAllAppend(jobs[1..], job);
    }
  }

  function EventsWith(log: seq<Event>, status: EventStatus): nat {
    if log == [] then 0 else (if log[0].status == status then 1 else 0) + EventsWith(log[1..], status)
  }

  lemma {:induction false} EventsAppend(a: seq<Event>, b: seq<Event>, status: EventStatus)
    ensures EventsWith(a + b, status) == EventsWith(a, status) + EventsWith(b, status)
  {
    if a == [] {
      assert a + b == b;
    } else {
      assert (a + b)[1..] == a[1..] + b;
      EventsAppend(a[1..], b, status);
    }
  }

  lemma GainEvents(job: Job, status: EventStatus)
    ensures EventsWith(GainLog(job), status)
            == match status
               case Queued => if RunsAgain(job) then 1 else 0
               case Running => 1
               case Success => Gain(job).success
               case Retry => Gain(job).retry
               case Failed => Gain(job).failed
  {
    var again := Retried(job);
    if job.handler(job.attempts) {
      TwoEvents(EventOf(job, Running), EventOf(job, Success), status);
    } else if RunsAgain(job) {
      TwoEvents(EventOf(again, Retry), EventOf(again, Queued), status);
      OneEvent(EventOf(job, Running), status);
      EventsAppend([EventOf(job, Running)], [EventOf(again, Retry), EventOf(again, Queued)], status);
    } else {
      TwoEvents(EventOf(job, Running), EventOf(again, Failed), status);
    }
  }

  lemma OneEvent(e: Event, status: EventStatus)
    ensures EventsWith([e], status) == if e.status == status then 1 else 0
  {
    assert [e][1..] == [];
  }

  lemma TwoEvents(e: Event, f: Event, status: EventStatus)
    ensures EventsWith([e, f], status) == EventsWith([e], status) + EventsWith([f], status)
    ensures [e] + [f] == [e, f]
    ensures EventsWith([e], status) == (if e.status == status then 1 else 0)
    ensures EventsWith([f], status) == if f.status == status then 1 else 0
  {
    OneEvent(e, status);
    OneEvent(f, status);
    assert [e, f] == [e] + [f];
    EventsAppend([e], [f], status);
  }

  /** The events of a job tell its fate: how often it ran, was retried and queued again, and how it ended. */
  lemma {:induction false} FateEvents(job: Job, status: EventStatus)
    ensures EventsWith(FateLog(job), status)
            == match status
               case Queued => Fate(job).retry
               case Running => Fate(job).success + Fate(job).retry + Fate(job).failed
               case Success => Fate(job).success
               case Retry => Fate(job).retry
               case Failed => Fate(job).failed
    decreases job.maxRetries - job.attempts
  {
    GainEvents(job, status);
    if RunsAgain(job) {
      FateEvents(Retried(job), status);
      EventsAppend(GainLog(job), FateLog(Retried(job)), status);
    } else {
      assert FateLog(job) == GainLog(job);
    }
  }

  /** Retry and failure events carry the attempts made so far, and a failure says so; all carry the job's name. */
  lemma EventsCarry(job: Job, i: nat)
    requires i < |GainLog(job)|
    ensures var e := GainLog(job)[i];
            && e.name == job.name && e.maxRetries == job.maxRetries
            && e.attempts == (if e.status in {Running, Success} then job.attempts else job.attempts + 1)
            && e.error == if e.status == Failed then Some(FailedAfter(job.name, job.attempts + 1)) else None
  {
  }

  /** The worker records the events of inline execution, each as often, in another order. */
  lemma {:induction false} DrainRecordsTheSame(jobs: seq<Job>)
    ensures multiset(DrainLog(jobs)) == multiset(FateLogAll(jobs))
    decreases BudgetAll(jobs)
  {
    if jobs == [] {
    } else {
      var job, rest := jobs[0], jobs[1..];
      BudgetDecreases(jobs);
      DrainRecordsTheSame(Turn(jobs));
      if RunsAgain(job) {
        FateLogAllAppend(rest, Retried(job));
        SameEvents(GainLog(job), FateLog(Retried(job)), FateLogAll(rest));
      } else {
        assert FateLog(job) == GainLog(job);
      }
    }
  }

  lemma SameEvents(a: seq<Event>, b: seq<Event>, c: seq<Event>)
    ensures multiset(a) + multiset(c + b) == multiset(a + b + c)
  {
  }

  /** Every job ends exactly once, as a success or as a failure. */
  lemma {:induction false} EveryJobEnds(jobs: seq<Job>)
    ensures Drain(jobs).success + Drain(jobs).failed == |jobs| == |Drain(jobs).verdicts|
  {
    DrainIsInline(jobs);
    FateAllEnds(jobs);
  }

  lemma {:induction false} FateAllEnds(jobs: seq<Job>)
    ensures FateAll(jobs).success + FateAll(jobs).failed == |jobs| == |FateAll(jobs).verdicts|
  {
    if jobs == [] {
    } else {
      FateShape(jobs[0]);
      FateAllEnds(jobs[1..]);
    }
  }

  function Triangle(n: nat): nat {
    n * (n + 1) / 2
  }

  lemma TriangleStep(n: nat)
    ensures Triangle(n) + n + 1 == Triangle(n + 1)
  {
  }

  /**
   * How a single job ends: after at most max(max_retries, attempts) + 1 runs in all; a job that fails has used
   * them all. The back-off slept is the sum of the attempt numbers it was retried at.
   */
  lemma {:induction false} FateShape(job: Job)
    ensures exists v :: Fate(job).verdicts == multiset{v} && v.name == job.name && ShapeOf(job, v)
    decreases job.maxRetries - job.attempts
  {
    if job.handler(job.attempts) || job.attempts + 1 > job.maxRetries {
      var v := Verdict(job.name, job.attempts + 1, job.handler(job.attempts));
      assert Fate(job).verdicts == multiset{v} && ShapeOf(job, v);
    } else {
      FateShape(Retried(job));
      var v :| Fate(Retried(job)).verdicts == multiset{v} && v.name == job.name && ShapeOf(Retried(job), v);
      ShapeStep(job, v);
      assert Fate(job).verdicts == multiset{v} && ShapeOf(job, v);
    }
  }

  lemma ShapeStep(job: Job, v: Verdict)
    requires !job.handler(job.attempts) && job.attempts + 1 <= job.maxRetries && ShapeOf(Retried(job), v)
    ensures ShapeOf(job, v)
  {
    TriangleStep(job.attempts);
  }

  ghost predicate ShapeOf(job: Job, v: Verdict) {
    var fate := Fate(job);
    && job.attempts < v.runs <= Max(job.maxRetries, job.attempts) + 1
    && fate.retry == v.runs - 1 - job.attempts
    && fate.success == (if v.succeeded then 1 else 0)
    && fate.failed == (if v.succeeded then 0 else 1)
    && fate.backoff == Triangle(v.runs - 1) - Triangle(job.attempts)
    && (v.succeeded <==> job.handler(v.runs - 1))
    && (forall n: nat | job.attempts <= n < v.runs - 1 :: !job.handler(n))
    && (!v.succeeded ==> v.runs == Max(job.maxRetries, job.attempts) + 1)
  }

  /** A new job that fails has slept delay * n(n+1)/2 with n = max_retries, after n + 1 runs. */
  lemma FailedJobBackoff(job: Job)
    requires job.attempts == 0 && job.maxRetries >= 0
    requires forall n: nat | n <= job.maxRetries :: !job.handler(n)
    ensures Fate(job) == Totals(0, job.maxRetries, 1, Triangle(job.maxRetries),
                                multiset{Verdict(job.name, job.maxRetries + 1, false)})
  {
    FateShape(job);
  }

  // ---------------------------------------------------------------- the queue object

  function LastOf(log: seq<Event>): seq<Event> {
    if |log| <= RECENT_EVENTS then log else log[|log| - RECENT_EVENTS..]
  }

  /** The bounded log is the tail of the whole one, of at most 25 events. */
  lemma LastOfIs(log: seq<Event>)
    ensures var recent := LastOf(log);
            && |recent| == Min(25, |log|)
            && log == log[..|log| - |recent|] + recent
  {
  }

  /** The bounded log after one more event. */
  lemma LastOfOneMore(log: seq<Event>, e: Event)
    ensures var longer := LastOf(log) + [e];
            LastOf(log + [e]) == if |longer| > RECENT_EVENTS then longer[1..] else longer
  {
  }

  class Queue {
    /** JOBS_SYNCHRONOUS, or the worker switched off. */
    const inline: bool
    var jobs: seq<Job>
    var recentEvents: seq<Event>
    var successTotal: nat
    var retryTotal: nat
    var failedTotal: nat
    var lastSuccessfulJob: Option<string>
    var lastFailedJob: Option<string>
    var lastError: Option<JobError>

    /** Every event ever recorded, the jobs submitted, the back-off slept and how each job ended. */
    ghost var log: seq<Event>
    ghost var submitted: nat
    ghost var backoff: nat
    ghost var verdicts: multiset<Verdict>

    ghost function Counters(): Totals
      reads this
    {
      Totals(successTotal, retryTotal, failedTotal, backoff, verdicts)
    }

    /** `running` jobs have left the queue and are not finished. */
    ghost predicate Accounted(running: nat)
      reads this
    {
      && recentEvents == LastOf(log)
      && submitted == successTotal + failedTotal + |jobs| + running
      && (inline ==> jobs == [])
    }

    ghost predicate Valid()
      reads this
    {
      Accounted(0)
    }

    constructor (inline: bool)
      ensures Valid() && Counters() == ZERO && jobs == [] && this.inline == inline
    {
      this.inline := inline;
      jobs, recentEvents := [], [];
      successTotal, retryTotal, failedTotal := 0, 0, 0;
      lastSuccessfulJob, lastFailedJob, lastError := None, None, None;
      log, submitted, backoff, verdicts := [], 0, 0, multiset{};
    }

    method RecordEvent(job: Job, status: EventStatus)
      requires recentEvents == LastOf(log)
      modifies this`recentEvents, this`log
      ensures log == old(log) + [EventOf(job, status)]
      ensures recentEvents == LastOf(log)
    {
      LastOfOneMore(log, EventOf(job, status));
      recentEvents := recentEvents + [EventOf(job, status)];
      if |recentEvents| > RECENT_EVENTS {
        recentEvents := recentEvents[1..];
      }
      log := log + [EventOf(job, status)];
    }

    /** A new job: it waits for the worker, or has been run to its end on return. */
    method Submit(job: Job)
      requires Valid()
      modifies this
      ensures Valid() && submitted == old(submitted) + 1
      ensures inline ==> Counters() == old(Counters()).Plus(Fate(job)) && jobs == old(jobs)
      ensures !inline ==> Counters() == old(Counters()) && jobs == old(jobs) + [job]
      ensures log == old(log) + EnqueueLog(job, inline)
    {
      submitted := submitted + 1;
      Enqueue(job);
    }

    method Enqueue(job: Job)
      requires Accounted(1)
      modifies this
      ensures Valid() && submitted == old(submitted)
      ensures inline ==> Counters() == old(Counters()).Plus(Fate(job)) && jobs == old(jobs)
      ensures !inline ==> Counters() == old(Counters()) && jobs == old(jobs) + [job]
      ensures log == old(log) + EnqueueLog(job, inline)
      decreases job.maxRetries - job.attempts, 2
    {
      RecordEvent(job, Queued);
      if inline {
        Execute(job);
        LogAssociates(old(log), [EventOf(job, Queued)], FateLog(job));
      } else {
        jobs := jobs + [job];
        assert EnqueueLog(job, false) == [EventOf(job, Queued)];
      }
    }

    method Execute(job: Job)
      requires Accounted(1)
      modifies this
      ensures Valid() && submitted == old(submitted)
      ensures inline ==> Counters() == old(Counters()).Plus(Fate(job)) && jobs == old(jobs)
      ensures !inline ==> Counters() == old(Counters()).Plus(Gain(job)) && jobs == Turn([job] + old(jobs))
      ensures log == old(log) + ExecuteLog(job, inline)
      decreases job.maxRetries - job.attempts, 1
    {
      RecordEvent(job, Running);
      if job.handler(job.attempts) {
        SuccessLogIs(job, inline);
        RecordSuccess(job);
        assert ([job] + old(jobs))[1..] == old(jobs);
      } else {
        FailureLogIs(job, inline);
        Fail(job);
        LogAssociates(old(log), [EventOf(job, Running)], FailureLog(job, inline));
      }
    }

    /** The handler raised: the job is enqueued again until its retries are used up. */
    method Fail(job: Job)
      requires Accounted(1) && !job.handler(job.attempts)
      modifies this
      ensures Valid() && submitted == old(submitted)
      ensures inline ==> Counters() == old(Counters()).Plus(Fate(job)) && jobs == old(jobs)
      ensures !inline ==> Counters() == old(Counters()).Plus(Gain(job)) && jobs == Turn([job] + old(jobs))
      ensures log == old(log) + FailureLog(job, inline)
      decreases job.maxRetries - job.attempts, 0
    {
      assert ([job] + jobs)[1..] == jobs;
      var failed := Retried(job);
      if failed.attempts <= failed.maxRetries {
        RecordRetry(failed);
        if inline {
          PlusAssociates(old(Counters()), Gain(job), Fate(failed));
        }
        Enqueue(failed);
        LogAssociates(old(log), [EventOf(failed, Retry)], EnqueueLog(failed, inline));
      } else {
        RecordFailure(failed);
      }
    }

    method RecordSuccess(job: Job)
      requires Accounted(1)
      modifies this
      ensures Valid() && submitted == old(submitted) && jobs == old(jobs)
      ensures Counters() == old(Counters()).Plus(
                Totals(1, 0, 0, 0, multiset{Verdict(job.name, job.attempts + 1, true)}))
      ensures log == old(log) + [EventOf(job, Success)] && lastSuccessfulJob == Some(job.name)
      ensures lastFailedJob == old(lastFailedJob) && lastError == old(lastError)
    {
      successTotal := successTotal + 1;
      lastSuccessfulJob := Some(job.name);
      verdicts := verdicts + multiset{Verdict(job.name, job.attempts + 1, true)};
      RecordEvent(job, Success);
    }

    /** The failed attempt is counted and its back-off slept before the job is enqueued again. */
    method RecordRetry(job: Job)
      requires Accounted(1)
      modifies this
      ensures Accounted(1) && submitted == old(submitted) && jobs == old(jobs)
      ensures Counters() == old(Counters()).Plus(Totals(0, 1, 0, job.attempts, multiset{}))
      ensures log == old(log) + [EventOf(job, Retry)] && lastSuccessfulJob == old(lastSuccessfulJob)
      ensures lastFailedJob == old(lastFailedJob) && lastError == old(lastError)
    {
      retryTotal := retryTotal + 1;
      backoff := backoff + job.attempts;
      RecordEvent(job, Retry);
    }

    method RecordFailure(job: Job)
      requires Accounted(1)
      modifies this
      ensures Valid() && submitted == old(submitted) && jobs == old(jobs)
      ensures Counters() == old(Counters()).Plus(
                Totals(0, 0, 1, 0, multiset{Verdict(job.name, job.attempts, false)}))
      ensures log == old(log) + [EventOf(job, Failed)] && lastSuccessfulJob == old(lastSuccessfulJob)
      ensures lastFailedJob == Some(job.name) && lastError == Some(FailedAfter(job.name, job.attempts))
    {
      failedTotal := failedTotal + 1;
      lastFailedJob := Some(job.name);
      lastError := Some(FailedAfter(job.name, job.attempts));
      verdicts := verdicts + multiset{Verdict(job.name, job.attempts, false)};
      RecordEvent(job, Failed);
    }

    /** One turn of the worker loop. */
    method Work()
      requires Valid() && !inline && jobs != []
      modifies this
      ensures Valid() && submitted == old(submitted) && jobs == Turn(old(jobs))
      ensures Counters() == old(Counters()).Plus(Gain(old(jobs)[0]))
      ensures log == old(log) + GainLog(old(jobs)[0])
    {
      var job := jobs[0];
      assert [job] + jobs[1..] == jobs;
      jobs := jobs[1..];
      Execute(job);
    }

    /** The worker loop, until the queue is empty. */
    method Run()
      requires Valid() && !inline
      modifies this
      ensures Valid() && jobs == [] && submitted == old(submitted)
      ensures Counters() == old(Counters()).Plus(Drain(old(jobs)))
      ensures log == old(log) + DrainLog(old(jobs))
    {
      ghost var end, all := Counters().Plus(Drain(jobs)), log + DrainLog(jobs);
      while jobs != []
        invariant Valid() && submitted == old(submitted)
        invariant Counters().Plus(Drain(jobs)) == end
        invariant log + DrainLog(jobs) == all
        decreases BudgetAll(jobs)
      {
        BudgetDecreases(jobs);
        PlusAssociates(Counters(), Gain(jobs[0]), Drain(Turn(jobs)));
        LogAssociates(log, GainLog(jobs[0]), DrainLog(Turn(jobs)));
        Work();
      }
      PlusZero(Counters());
    }
  }

  /**
   * A batch handed to an empty queue and run to the end: whichever way the queue executes jobs, the counters,
   * the back-off and the end of every job are the same.
   */
  method RunBatch(queue: Queue, batch: seq<Job>)
    requires queue.Valid() && queue.jobs == []
    modifies queue
    ensures queue.Valid() && queue.jobs == [] && queue.submitted == old(queue.submitted) + |batch|
    ensures queue.Counters() == old(queue.Counters()).Plus(FateAll(batch))
  {
    if queue.inline {
      SubmitInline(queue, batch);
    } else {
      SubmitToWorker(queue, batch);
      assert queue.jobs == batch;
      DrainIsInline(batch);
      queue.Run();
    }
  }

  method SubmitInline(queue: Queue, batch: seq<Job>)
    requires queue.Valid() && queue.inline
    modifies queue
    ensures queue.Valid() && queue.submitted == old(queue.submitted) + |batch|
    ensures queue.Counters() == old(queue.Counters()).Plus(FateAll(batch))
  {
    ghost var end := queue.Counters().Plus(FateAll(batch));
    for i := 0 to |batch|
      invariant queue.Valid() && queue.submitted == old(queue.submitted) + i
      invariant queue.Counters().Plus(FateAll(batch[i..])) == end
    {
      assert batch[i..][1..] == batch[i + 1..];
      PlusAssociates(queue.Counters(), Fate(batch[i]), FateAll(batch[i + 1..]));
      queue.Submit(batch[i]);
    }
    PlusZero(queue.Counters());
  }

  method SubmitToWorker(queue: Queue, batch: seq<Job>)
    requires queue.Valid() && !queue.inline
    modifies queue
    ensures queue.Valid() && queue.submitted == old(queue.submitted) + |batch|
    ensures queue.Counters() == old(queue.Counters()) && queue.jobs == old(queue.jobs) + batch
  {
    for i := 0 to |batch|
      invariant queue.Valid() && queue.submitted == old(queue.submitted) + i
      invariant queue.Counters() == old(queue.Counters()) && queue.jobs == old(queue.jobs) + batch[..i]
    {
      assert batch[..i] + [batch[i]] == batch[..i + 1];
      queue.Submit(batch[i]);
    }
    assert batch[..|batch|] == batch;
  }
}
