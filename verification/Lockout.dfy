/** The failed-login counter and the temporary lock of app/services/auth.py. */
module Lockout {
  import opened Basics

  datatype Account = Account(failedLoginAttempts: int, lockedUntil: Option<int>)

  /** AUTH_MAX_FAILED_LOGIN_ATTEMPTS, the lock's length, and REQUIRE_EMAIL_VERIFICATION. */
  datatype Policy = Policy(maxFailed: int, lockout: int, requireVerified: bool)

  /** A login request: when it comes, whether the password is right, whether the e-mail is verified. */
  datatype Attempt = Attempt(now: int, passwordOk: bool, verified: bool)

  /** Locked and Unverified refuse without touching the counter; Wrong is a checked wrong password. */
  datatype Verdict = Locked | Wrong | Unverified | LoggedIn

  const FRESH := Account(0, None)

  /** The number of wrong passwords that locks an account. */
  function Threshold(policy: Policy): int {
    Max(1, policy.maxFailed)
  }

  predicate IsLocked(account: Account, now: int) {
    account.lockedUntil.Some? && account.lockedUntil.value > now
  }

  function Judge(policy: Policy, account: Account, a: Attempt): Verdict {
    if IsLocked(account, a.now) then Locked
    else if !a.passwordOk then Wrong
    else if policy.requireVerified && !a.verified then Unverified
    else LoggedIn
  }

  function Next(policy: Policy, account: Account, a: Attempt): Account {
    match Judge(policy, account, a)
    case Locked | Unverified => account
    case LoggedIn => FRESH
    case Wrong =>
      var failed := account.failedLoginAttempts + 1;
      if failed >= policy.maxFailed then Account(0, Some(a.now + policy.lockout))
      else account.(failedLoginAttempts := failed)
  }

  /** The user row as the login service updates it. */
  class User {
    const policy: Policy
    var failedLoginAttempts: int
    var lockedUntil: Option<int>

    function View(): Account
      reads this
    {
      Account(failedLoginAttempts, lockedUntil)
    }

    constructor (policy: Policy)
      ensures View() == FRESH && this.policy == policy
    {
      this.policy := policy;
      failedLoginAttempts := 0;
      lockedUntil := None;
    }

    method Login(a: Attempt) returns (verdict: Verdict)
      modifies this
      ensures verdict == Judge(policy, old(View()), a)
      ensures View() == Next(policy, old(View()), a)
    {
      if lockedUntil.Some? && lockedUntil.value > a.now {
        return Locked;
      }
      if !a.passwordOk {
        RecordFailedLogin(a.now);
        return Wrong;
      }
      if policy.requireVerified && !a.verified {
        return Unverified;
      }
      ClearFailedLogins();
      return LoggedIn;
    }

    method RecordFailedLogin(now: int)
      modifies this
      ensures View() ==
              if old(failedLoginAttempts) + 1 >= policy.maxFailed then Account(0, Some(now + policy.lockout))
              else Account(old(failedLoginAttempts) + 1, old(lockedUntil))
    {
      failedLoginAttempts := failedLoginAttempts + 1;
      if failedLoginAttempts >= policy.maxFailed {
        lockedUntil := Some(now + policy.lockout);
        failedLoginAttempts := 0;
      }
    }

    method ClearFailedLogins()
      modifies this
      ensures View() == FRESH
    {
      if failedLoginAttempts != 0 || lockedUntil.Some? {
        failedLoginAttempts := 0;
        lockedUntil := None;
      }
    }
  }

  // ---------------------------------------------------------------- runs

  function After(policy: Policy, account: Account, run: seq<Attempt>): Account
    decreases run
  {
    if run == [] then account else After(policy, Next(policy, account, run[0]), run[1..])
  }

  /** How many attempts of the run end with the given verdict. */
  function Count(policy: Policy, account: Account, run: seq<Attempt>, v: Verdict): nat
    decreases run
  {
    if run == [] then 0
    else
      (if Judge(policy, account, run[0]) == v then 1 else 0)
      + Count(policy, Next(policy, account, run[0]), run[1..], v)
  }

  /** The stored counter stays below the threshold in every reachable state. */
  lemma {:induction false} CounterBelowThreshold(policy: Policy, account: Account, run: seq<Attempt>)
    requires 0 <= account.failedLoginAttempts < Threshold(policy)
    ensures 0 <= After(policy, account, run).failedLoginAttempts < Threshold(policy)
    decreases run
  {
    if run == [] {
    } else {
      CounterBelowThreshold(policy, Next(policy, account, run[0]), run[1..]);
    }
  }

  ghost predicate Within(run: seq<Attempt>, start: int, end: int) {
    forall i | 0 <= i < |run| :: start <= run[i].now < end
  }

  /** Nothing is checked while the lock set inside the interval lasts. */
  lemma {:induction false} LockedInWindow(policy: Policy, account: Account, run: seq<Attempt>, start: int)
    requires account.lockedUntil.Some? && account.lockedUntil.value >= start + policy.lockout
    requires Within(run, start, start + policy.lockout)
    ensures Count(policy, account, run, Wrong) == 0 == Count(policy, account, run, LoggedIn)
    decreases run
  {
    if run == [] {
    } else {
      assert Within(run[1..], start, start + policy.lockout);
      LockedInWindow(policy, account, run[1..], start);
    }
  }

  /** From a counter k, an interval no longer than the lock checks at most (MAX-1)*c + MAX - k wrong passwords. */
  lemma {:induction false} WrongBoundFrom(policy: Policy, account: Account, run: seq<Attempt>, start: int)
    requires 0 <= account.failedLoginAttempts < Threshold(policy)
    requires Within(run, start, start + policy.lockout)
    ensures Count(policy, account, run, Wrong)
            <= (Threshold(policy) - 1) * Count(policy, account, run, LoggedIn)
               + Threshold(policy) - account.failedLoginAttempts
    decreases run
  {
    if run == [] {
    } else {
      var next := Next(policy, account, run[0]);
      assert Within(run[1..], start, start + policy.lockout);
      if Judge(policy, account, run[0]) == Wrong && next.failedLoginAttempts == 0 {
        LockedInWindow(policy, next, run[1..], start);
      } else {
        WrongBoundFrom(policy, next, run[1..], start);
        if Judge(policy, account, run[0]) == LoggedIn {
          var c := Count(policy, next, run[1..], LoggedIn);
          assert (Threshold(policy) - 1) * (c + 1) == (Threshold(policy) - 1) * c + (Threshold(policy) - 1);
        }
      }
    }
  }

  /**
   * In any half-open interval as long as the lock, of any run from a new account, with c successful logins,
   * at most (MAX-1)*c + MAX wrong passwords are checked.
   */
  lemma LockoutBound(policy: Policy, run: seq<Attempt>, i: nat, j: nat, start: int)
    requires i <= j <= |run| && Within(run[i..j], start, start + policy.lockout)
    ensures var account := After(policy, FRESH, run[..i]);
            Count(policy, account, run[i..j], Wrong)
            <= (Threshold(policy) - 1) * Count(policy, account, run[i..j], LoggedIn) + Threshold(policy)
  {
    CounterBelowThreshold(policy, FRESH, run[..i]);
    WrongBoundFrom(policy, After(policy, FRESH, run[..i]), run[i..j], start);
  }

  // ---------------------------------------------------------------- exactly when an account is locked

  ghost predicate Clocked(run: seq<Attempt>) {
    forall i, j | 0 <= i <= j < |run| :: run[i].now <= run[j].now
  }

  /** The verdict on attempt i of a run from a new account. */
  function VerdictAt(policy: Policy, run: seq<Attempt>, i: nat): Verdict
    requires i < |run|
  {
    Judge(policy, After(policy, FRESH, run[..i]), run[i])
  }

  /** The wrong passwords checked among the first n attempts, since the last login or the last lock among them. */
  function Strikes(policy: Policy, run: seq<Attempt>, n: nat): nat
    requires n <= |run|
  {
    if n == 0 then 0
    else
      match VerdictAt(policy, run, n - 1)
      case LoggedIn => 0
      case Wrong =>
        var strikes := Strikes(policy, run, n - 1) + 1;
        if strikes == Threshold(policy) then 0 else strikes
      case Locked | Unverified => Strikes(policy, run, n - 1)
  }

  /** Attempt j is a wrong password, the MAX-th one since the last login or the last lock. */
  predicate LocksAt(policy: Policy, run: seq<Attempt>, j: nat)
    requires j < |run|
  {
    VerdictAt(policy, run, j) == Wrong && Strikes(policy, run, j) + 1 == Threshold(policy)
  }

  lemma {:induction false} AfterOneMore(policy: Policy, account: Account, run: seq<Attempt>, a: Attempt)
    ensures After(policy, account, run + [a]) == Next(policy, After(policy, account, run), a)
    decreases run
  {
    if run == [] {
      assert [a][1..] == [];
    } else {
      assert (run + [a])[1..] == run[1..] + [a];
      AfterOneMore(policy, Next(policy, account, run[0]), run[1..], a);
    }
  }

  lemma AfterStep(policy: Policy, run: seq<Attempt>, i: nat)
    requires i < |run|
    ensures After(policy, FRESH, run[..i + 1]) == Next(policy, After(policy, FRESH, run[..i]), run[i])
  {
    assert run[..i + 1] == run[..i] + [run[i]];
    AfterOneMore(policy, FRESH, run[..i], run[i]);
  }

  /** The stored counter is the number of strikes, which stays below the threshold. */
  lemma {:induction false} CounterIs(policy: Policy, run: seq<Attempt>, n: nat)
    requires n <= |run|
    ensures After(policy, FRESH, run[..n]).failedLoginAttempts == Strikes(policy, run, n) < Threshold(policy)
  {
    if n == 0 {
    } else {
      CounterIs(policy, run, n - 1);
      AfterStep(policy, run, n - 1);
    }
  }

  /** When the last lock not lifted by a login ends. */
  function LastLock(policy: Policy, run: seq<Attempt>, n: nat): Option<int>
    requires n <= |run|
  {
    if n == 0 then None
    else if VerdictAt(policy, run, n - 1) == LoggedIn then None
    else if LocksAt(policy, run, n - 1) then Some(run[n - 1].now + policy.lockout)
    else LastLock(policy, run, n - 1)
  }

  lemma {:induction false} StoredLockIs(policy: Policy, run: seq<Attempt>, n: nat)
    requires n <= |run|
    ensures After(policy, FRESH, run[..n]).lockedUntil == LastLock(policy, run, n)
  {
    if n == 0 {
    } else {
      StoredLockIs(policy, run, n - 1);
      AfterStep(policy, run, n - 1);
      CounterIs(policy, run, n - 1);
    }
  }

  ghost predicate LockedFrom(policy: Policy, run: seq<Attempt>, i: nat, j: nat) {
    j < i < |run| && LocksAt(policy, run, j) && run[i].now < run[j].now + policy.lockout
  }

  lemma {:induction false} LastLockComesFrom(policy: Policy, run: seq<Attempt>, n: nat) returns (j: nat)
    requires n <= |run| && LastLock(policy, run, n).Some?
    ensures j < n && LocksAt(policy, run, j) && LastLock(policy, run, n) == Some(run[j].now + policy.lockout)
  {
    if LocksAt(policy, run, n - 1) {
      j := n - 1;
    } else {
      j := LastLockComesFrom(policy, run, n - 1);
    }
  }

  /** While it lasts, a lock is the last one, and refuses every attempt. */
  lemma {:induction false} LockHolds(policy: Policy, run: seq<Attempt>, j: nat, n: nat)
    requires Clocked(run) && j < n <= |run| && LocksAt(policy, run, j)
    requires run[n - 1].now < run[j].now + policy.lockout
    ensures LastLock(policy, run, n) == Some(run[j].now + policy.lockout)
    ensures j < n - 1 ==> VerdictAt(policy, run, n - 1) == Locked
  {
    if n == j + 1 {
    } else {
      LockHolds(policy, run, j, n - 1);
      StoredLockIs(policy, run, n - 1);
    }
  }

  /**
   * Exactly when a login is refused as locked, in any run from a new account with a nondecreasing clock: it comes less
   * than the lock's length after a checked wrong password that was the MAX-th since the last login or lock; every
   * attempt in between is refused the same way.
   */
  lemma {:induction false} LockedIff(policy: Policy, run: seq<Attempt>, i: nat)
    requires Clocked(run) && i < |run|
    ensures VerdictAt(policy, run, i) == Locked <==> exists j: nat :: LockedFrom(policy, run, i, j)
    ensures forall j: nat, k: nat | LockedFrom(policy, run, i, j) && j < k < i :: VerdictAt(policy, run, k) == Locked
  {
    StoredLockIs(policy, run, i);
    if VerdictAt(policy, run, i) == Locked {
      var j := LastLockComesFrom(policy, run, i);
      assert LockedFrom(policy, run, i, j);
    }
    forall j: nat | LockedFrom(policy, run, i, j) ensures VerdictAt(policy, run, i) == Locked {
      LockHolds(policy, run, j, i + 1);
    }
    forall j: nat, k: nat | LockedFrom(policy, run, i, j) && j < k < i ensures VerdictAt(policy, run, k) == Locked {
      assert run[k].now <= run[i].now;
      LockHolds(policy, run, j, k + 1);
    }
  }

  /** An attempt that is not locked out is judged by its password and the e-mail's verification alone. */
  lemma JudgedOnItsOwn(policy: Policy, run: seq<Attempt>, i: nat)
    requires i < |run| && VerdictAt(policy, run, i) != Locked
    ensures VerdictAt(policy, run, i) == Wrong <==> !run[i].passwordOk
    ensures VerdictAt(policy, run, i) == Unverified <==>
              run[i].passwordOk && policy.requireVerified && !run[i].verified
  {
  }

  /** A login starts the count again and leaves no lock. */
  lemma LoginClears(policy: Policy, run: seq<Attempt>, i: nat)
    requires i < |run| && VerdictAt(policy, run, i) == LoggedIn
    ensures After(policy, FRESH, run[..i + 1]) == Account(0, None) && Strikes(policy, run, i + 1) == 0
  {
    AfterStep(policy, run, i);
  }
}
