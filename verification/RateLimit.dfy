/** The fixed-window rate limiter of app/core/rate_limit.py, in-memory path. */
module RateLimit {
  import opened Basics

  datatype LimitRecord = LimitRecord(count: int, expiresAt: int)

  type Memory = map<string, LimitRecord>

  /** The record a request at time `now` leaves for its key: a new window when there is none running. */
  function Bump(m: Memory, key: string, window: int, now: int): LimitRecord {
    if key !in m || m[key].expiresAt <= now
    then LimitRecord(1, now + window)
    else LimitRecord(m[key].count + 1, m[key].expiresAt)
  }

  function Pruned(m: Memory, now: int): Memory {
    map k | k in m && m[k].expiresAt > now :: m[k]
  }

  function Incremented(m: Memory, key: string, window: int, now: int): Memory {
    Pruned(m[key := Bump(m, key, window, now)], now)
  }

  class RateLimiter {
    var memory: Memory

    constructor ()
      ensures memory == map[]
    {
      memory := map[];
    }

    method Increment(key: string, window: int, now: int) returns (count: int)
      modifies this
      ensures memory == Incremented(old(memory), key, window, now)
      ensures count == Bump(old(memory), key, window, now).count
    {
      var record := LimitRecord(0, now + window);
      if key in memory && memory[key].expiresAt > now {
        record := memory[key];
      }
      record := record.(count := record.count + 1);
      memory := memory[key := record];
      Prune(now);
      count := record.count;
    }

    method Prune(now: int)
      modifies this
      ensures memory == Pruned(old(memory), now)
    {
      memory := map k | k in memory && memory[k].expiresAt > now :: memory[k];
    }

    /** True when the request is let through; false stands for the 429 response. */
    method Enforce(key: string, limit: int, window: int, now: int) returns (admitted: bool)
      modifies this
      ensures memory == Incremented(old(memory), key, window, now)
      ensures admitted <==> Bump(old(memory), key, window, now).count <= limit
    {
      var current := Increment(key, window, now);
      admitted := current <= limit;
    }
  }

  // ---------------------------------------------------------------- traces

  datatype Request = Request(now: int, key: string, limit: int, window: int)

  ghost predicate Clocked(trace: seq<Request>) {
    forall i, j | 0 <= i <= j < |trace| :: trace[i].now <= trace[j].now
  }

  /** Every request of `key` uses the same limit and window. */
  ghost predicate Constant(trace: seq<Request>, key: string, limit: int, window: int) {
    forall i | 0 <= i < |trace| && trace[i].key == key :: trace[i].limit == limit && trace[i].window == window
  }

  ghost predicate Within(trace: seq<Request>, start: int, end: int) {
    forall i | 0 <= i < |trace| :: start <= trace[i].now < end
  }

  function After(m: Memory, trace: seq<Request>): Memory
    decreases trace
  {
    if trace == [] then m
    else After(Incremented(m, trace[0].key, trace[0].window, trace[0].now), trace[1..])
  }

  /** How many requests of `key` the limiter lets through while it handles `trace` from `m`. */
  function Admitted(m: Memory, trace: seq<Request>, key: string): nat
    decreases trace
  {
    if trace == [] then 0
    else
      var r := trace[0];
      (if r.key == key && Bump(m, r.key, r.window, r.now).count <= r.limit then 1 else 0)
      + Admitted(Incremented(m, r.key, r.window, r.now), trace[1..], key)
  }

  ghost predicate Counted(m: Memory) {
    forall k | k in m :: m[k].count >= 1
  }

  lemma {:induction false} AfterCounted(m: Memory, trace: seq<Request>)
    requires Counted(m)
    ensures Counted(After(m, trace))
    decreases trace
  {
    if trace == [] {
    } else {
      AfterCounted(Incremented(m, trace[0].key, trace[0].window, trace[0].now), trace[1..]);
    }
  }

  /** An upper bound on what can still be admitted for `key` before time `end`. */
  function Room(m: Memory, key: string, limit: int, end: int): nat {
    if key !in m then Positive(limit)
    else Positive(limit - m[key].count) + if m[key].expiresAt >= end then 0 else Positive(limit)
  }

  lemma {:induction false} AdmittedFitsRoom(
      m: Memory, trace: seq<Request>, key: string, limit: int, window: int, start: int)
    requires Within(trace, start, start + window) && Constant(trace, key, limit, window)
    requires Counted(m)
    ensures Admitted(m, trace, key) <= Room(m, key, limit, start + window)
    decreases trace
  {
    if trace == [] {
    } else {
      var r := trace[0];
      var m' := Incremented(m, r.key, r.window, r.now);
      assert Constant(trace[1..], key, limit, window) && Within(trace[1..], start, start + window);
      AdmittedFitsRoom(m', trace[1..], key, limit, window, start);
    }
  }

  /**
   * Every half-open interval as long as the window admits at most 2 * limit - 1 requests of a key, in any run
   * of the limiter: `trace[i..j]` is any part of the run that lies inside `[start, start + window)`.
   */
  lemma IntervalBound(
      trace: seq<Request>, i: nat, j: nat, key: string, limit: int, window: int, start: int)
    requires i <= j <= |trace| && Constant(trace, key, limit, window)
    requires Within(trace[i..j], start, start + window)
    ensures Admitted(After(map[], trace[..i]), trace[i..j], key) <= Positive(2 * limit - 1)
  {
    AfterCounted(map[], trace[..i]);
    AdmittedFitsRoom(After(map[], trace[..i]), trace[i..j], key, limit, window, start);
  }

  /** n requests at once. */
  function Burst(n: nat, r: Request): seq<Request> {
    if n == 0 then [] else [r] + Burst(n - 1, r)
  }

  lemma {:induction false} AdmittedAppend(m: Memory, first: seq<Request>, second: seq<Request>, key: string)
    ensures Admitted(m, first + second, key) == Admitted(m, first, key) + Admitted(After(m, first), second, key)
    decreases first
  {
    if first == [] {
      assert first + second == second;
    } else {
      assert (first + second)[1..] == first[1..] + second;
      AdmittedAppend(Incremented(m, first[0].key, first[0].window, first[0].now), first[1..], second, key);
    }
  }

  /** A burst that fits into what a running window has left is let through whole. */
  lemma {:induction false} BurstFits(m: Memory, n: nat, r: Request)
    requires r.key in m && m[r.key].expiresAt > r.now && m[r.key].count + n <= r.limit
    ensures Admitted(m, Burst(n, r), r.key) == n
    ensures r.key in After(m, Burst(n, r)) && After(m, Burst(n, r))[r.key].expiresAt == m[r.key].expiresAt
  {
    if n == 0 {
    } else {
      assert Burst(n, r)[1..] == Burst(n - 1, r);
      BurstFits(Incremented(m, r.key, r.window, r.now), n - 1, r);
    }
  }

  /** So is a burst of at most `limit` that finds no window running. */
  lemma OpeningBurst(m: Memory, n: nat, r: Request)
    requires r.key in m ==> m[r.key].expiresAt <= r.now
    requires 1 <= n <= r.limit && r.window > 0
    ensures Admitted(m, Burst(n, r), r.key) == n
    ensures r.key in After(m, Burst(n, r)) && After(m, Burst(n, r))[r.key].expiresAt == r.now + r.window
  {
    assert Burst(n, r)[1..] == Burst(n - 1, r);
    BurstFits(Incremented(m, r.key, r.window, r.now), n - 1, r);
  }

  lemma {:induction false} BurstSame(n: nat, r: Request)
    ensures |Burst(n, r)| == n && forall i | 0 <= i < n :: Burst(n, r)[i] == r
  {
    if n == 0 {
    } else {
      BurstSame(n - 1, r);
    }
  }

  /** One request opens a window; the rest of its limit comes just before it expires, and a full limit just after. */
  function TightRun(key: string, limit: int, window: int): seq<Request>
    requires limit >= 1
  {
    [Request(0, key, limit, window)]
    + (Burst(limit - 1, Request(window - 1, key, limit, window)) + Burst(limit, Request(window, key, limit, window)))
  }

  lemma TightRunShape(key: string, limit: int, window: int)
    requires limit >= 1 && window >= 2
    ensures var run := TightRun(key, limit, window);
            && |run| == 2 * limit
            && Clocked(run) && Constant(run, key, limit, window)
            && Within(run[1..], window - 1, (window - 1) + window)
  {
    BurstSame(limit - 1, Request(window - 1, key, limit, window));
    BurstSame(limit, Request(window, key, limit, window));
  }

  /** What the two bursts after the opening request get through. */
  lemma TightRunAdmitted(m: Memory, key: string, limit: int, window: int)
    requires limit >= 1 && window >= 2 && key in m && m[key] == LimitRecord(1, window)
    ensures var late, next := Request(window - 1, key, limit, window), Request(window, key, limit, window);
            Admitted(m, Burst(limit - 1, late) + Burst(limit, next), key) == 2 * limit - 1
  {
    var late, next := Request(window - 1, key, limit, window), Request(window, key, limit, window);
    BurstFits(m, limit - 1, late);
    OpeningBurst(After(m, Burst(limit - 1, late)), limit, next);
    AdmittedAppend(m, Burst(limit - 1, late), Burst(limit, next), key);
  }

  lemma AfterOne(m: Memory, r: Request)
    ensures After(m, [r]) == Incremented(m, r.key, r.window, r.now)
  {
    assert [r][1..] == [];
  }

  /**
   * The bound is reached for every limit and window: all but the first request of this run lie in an interval as
   * long as the window, and all 2 * limit - 1 of them are let through.
   */
  lemma IntervalBoundIsTight(key: string, limit: int, window: int)
    requires limit >= 1 && window >= 2
    ensures var run := TightRun(key, limit, window);
            && |run| == 2 * limit
            && Clocked(run) && Constant(run, key, limit, window)
            && Within(run[1..], window - 1, (window - 1) + window)
            && Admitted(After(map[], run[..1]), run[1..], key) == 2 * limit - 1
  {
    TightRunShape(key, limit, window);
    var run, first := TightRun(key, limit, window), Request(0, key, limit, window);
    assert run[..1] == [first];
    AfterOne(map[], first);
    TightRunAdmitted(Incremented(map[], key, window, 0), key, limit, window);
  }

  /** A window, from the request that opens it until it expires, admits at most `limit` requests. */
  lemma WindowBound(m: Memory, trace: seq<Request>, key: string, limit: int, window: int)
    requires Counted(m) && trace != [] && trace[0].key == key
    requires key !in m || m[key].expiresAt <= trace[0].now
    requires Constant(trace, key, limit, window)
    requires Within(trace, trace[0].now, trace[0].now + window)
    ensures Admitted(m, trace, key) <= Positive(limit)
  {
    var r := trace[0];
    var m' := Incremented(m, key, window, r.now);
    assert Constant(trace[1..], key, limit, window) && Within(trace[1..], r.now, r.now + window);
    AdmittedFitsRoom(m', trace[1..], key, limit, window, r.now);
  }

  // ---------------------------------------------------------------- pruning cannot be observed

  function Counts(m: Memory, trace: seq<Request>): seq<int>
    decreases trace
  {
    if trace == [] then []
    else
      var r := trace[0];
      [Bump(m, r.key, r.window, r.now).count] + Counts(Incremented(m, r.key, r.window, r.now), trace[1..])
  }

  /** The same limiter without `_prune`. */
  function CountsKeepingAll(m: Memory, trace: seq<Request>): seq<int>
    decreases trace
  {
    if trace == [] then []
    else
      var r := trace[0];
      var record := Bump(m, r.key, r.window, r.now);
      [record.count] + CountsKeepingAll(m[r.key := record], trace[1..])
  }

  ghost predicate SameRunning(m: Memory, full: Memory, now: int) {
    && (forall k | k in m && m[k].expiresAt > now :: k in full && full[k] == m[k])
    && (forall k | k in full && full[k].expiresAt > now :: k in m && m[k] == full[k])
  }

  lemma {:induction false} PruningInvisible(m: Memory, full: Memory, trace: seq<Request>, now: int)
    requires Clocked(trace) && SameRunning(m, full, now)
    requires trace != [] ==> now <= trace[0].now
    ensures Counts(m, trace) == CountsKeepingAll(full, trace)
    decreases trace
  {
    if trace == [] {
    } else {
      var r := trace[0];
      PruningInvisible(
        Incremented(m, r.key, r.window, r.now),
        full[r.key := Bump(full, r.key, r.window, r.now)], trace[1..], r.now);
    }
  }

  /** On any trace with a nondecreasing clock the pruned limiter returns the counts of one that never prunes. */
  lemma PruningUnobservable(trace: seq<Request>)
    requires Clocked(trace)
    ensures Counts(map[], trace) == CountsKeepingAll(map[], trace)
  {
    if trace != [] {
      PruningInvisible(map[], map[], trace, trace[0].now);
    }
  }

  // ---------------------------------------------------------------- exactly which requests are admitted

  /** The last request of the key among the first n. */
  function Latest(trace: seq<Request>, n: nat, key: string): (latest: Option<nat>)
    requires n <= |trace|
    ensures latest.Some? ==> latest.value < n && trace[latest.value].key == key
    ensures forall i | (if latest.Some? then latest.value + 1 else 0) <= i < n :: trace[i].key != key
  {
    if n == 0 then None
    else if trace[n - 1].key == key then Some(n - 1)
    else Latest(trace, n - 1, key)
  }

  /** What opened the window of request i: the first request of its key, or the first after the last window. */
  function Opener(trace: seq<Request>, i: nat): (o: nat)
    requires i < |trace|
    ensures o <= i && trace[o].key == trace[i].key
    decreases i
  {
    var latest := Latest(trace, i, trace[i].key);
    if latest.None? then i
    else
      var o := Opener(trace, latest.value);
      if trace[i].now < trace[o].now + trace[o].window then o else i
  }

  /** How many requests from lo up to and without hi have the key. */
  function CountKey(trace: seq<Request>, lo: nat, hi: nat, key: string): nat
    requires lo <= hi <= |trace|
  {
    if lo == hi then 0 else CountKey(trace, lo, hi - 1, key) + if trace[hi - 1].key == key then 1 else 0
  }

  lemma {:induction false} CountGap(trace: seq<Request>, lo: nat, mid: nat, hi: nat, key: string)
    requires lo <= mid <= hi <= |trace| && forall i | mid <= i < hi :: trace[i].key != key
    ensures CountKey(trace, lo, hi, key) == CountKey(trace, lo, mid, key)
  {
    if mid == hi {
    } else {
      CountGap(trace, lo, mid, hi - 1, key);
    }
  }

  lemma {:induction false} AfterOneMore(m: Memory, trace: seq<Request>, r: Request)
    ensures After(m, trace + [r]) == Incremented(After(m, trace), r.key, r.window, r.now)
    decreases trace
  {
    if trace == [] {
      assert [r][1..] == [];
    } else {
      assert (trace + [r])[1..] == trace[1..] + [r];
      AfterOneMore(Incremented(m, trace[0].key, trace[0].window, trace[0].now), trace[1..], r);
    }
  }

  /** The record the request i leaves: how many of its window have come, and when the window ends. */
  ghost function Left(trace: seq<Request>, i: nat): LimitRecord
    requires i < |trace|
  {
    var o := Opener(trace, i);
    LimitRecord(CountKey(trace, o, i + 1, trace[i].key), trace[o].now + trace[o].window)
  }

  /** What is stored for a key after the first n requests: what its latest request left, unless that has expired. */
  ghost predicate StoredIs(m: Memory, trace: seq<Request>, n: nat, key: string)
    requires n <= |trace|
  {
    match Latest(trace, n, key)
    case None => key !in m
    case Some(i) => if key in m then m[key] == Left(trace, i) else n > 0 && Left(trace, i).expiresAt <= trace[n - 1].now
  }

  /** The count a request gets is its place among the requests of its key in the window it falls into. */
  lemma CountIs(m: Memory, trace: seq<Request>, n: nat)
    requires Clocked(trace) && n < |trace| && StoredIs(m, trace, n, trace[n].key)
    ensures Bump(m, trace[n].key, trace[n].window, trace[n].now) == Left(trace, n)
  {
    var r, latest := trace[n], Latest(trace, n, trace[n].key);
    if latest.Some? && Opener(trace, n) != n {
      CountGap(trace, Opener(trace, n), latest.value + 1, n, r.key);
    }
    if Opener(trace, n) == n {
      assert CountKey(trace, n, n, r.key) == 0;
    }
  }

  lemma {:induction false} MemoryIs(trace: seq<Request>, n: nat, key: string)
    requires Clocked(trace) && n <= |trace|
    ensures StoredIs(After(map[], trace[..n]), trace, n, key)
  {
    if n == 0 {
    } else {
      var m, r := After(map[], trace[..n - 1]), trace[n - 1];
      assert trace[..n] == trace[..n - 1] + [r];
      AfterOneMore(map[], trace[..n - 1], r);
      MemoryIs(trace, n - 1, key);
      if key == r.key {
        CountIs(m, trace, n - 1);
      }
    }
  }

  /**
   * Exactly which requests are let through, in any trace with a nondecreasing clock: those that are among the first
   * `limit` of their key in their window, a window being opened by the first request of the key after the last one
   * ended.
   */
  lemma {:induction false} AdmittedIff(trace: seq<Request>, n: nat)
    requires Clocked(trace) && n < |trace|
    ensures var r := trace[n];
            Bump(After(map[], trace[..n]), r.key, r.window, r.now).count <= r.limit
            <==> CountKey(trace, Opener(trace, n), n + 1, r.key) <= r.limit
  {
    MemoryIs(trace, n, trace[n].key);
    CountIs(After(map[], trace[..n]), trace, n);
  }

  /** Nothing that has expired is kept: pruning bounds the memory by the keys with a running window. */
  lemma {:induction false} NothingExpiredIsKept(trace: seq<Request>, key: string)
    requires trace != []
    ensures key in After(map[], trace) ==> After(map[], trace)[key].expiresAt > trace[|trace| - 1].now
  {
    var front, last := trace[..|trace| - 1], trace[|trace| - 1];
    assert trace == front + [last];
    AfterOneMore(map[], front, last);
  }
}
