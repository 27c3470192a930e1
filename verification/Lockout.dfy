/** The login lockout of one account (auth/auth.go): the failure count is only reset by a success, so
    once the threshold is reached every further failure locks the account again. */
module Lockout {
  import opened Common

  datatype Account = Account(failures: nat, lockedUntil: Option<int>)

  /** One login: the lock is checked at `checkAt`; a wrong password is recorded at `recordAt`, a right one
      clears the count, if the database takes that last update (`updated`). After a right password the
      permissions, the session and the token can still fail (`served` is false). */
  datatype Login = Login(checkAt: int, recordAt: int, passwordOk: bool, served: bool, updated: bool)

  datatype Reply = Locked | WrongPassword | ServerError | LoggedIn

  predicate IsLocked(acc: Account, now: int) { acc.lockedUntil.Some? && acc.lockedUntil.value > now }

  /** `recordFailedPassword`. */
  function RecordFailure(max: int, lockout: int, acc: Account, now: int): Account {
    Account(acc.failures + 1, if acc.failures + 1 >= max then Some(now + lockout) else acc.lockedUntil)
  }

  function After(max: int, lockout: int, acc: Account, l: Login): Account {
    if IsLocked(acc, l.checkAt) then acc
    else if !l.updated then acc
    else if !l.passwordOk then RecordFailure(max, lockout, acc, l.recordAt)
    else if l.served then Account(0, None)
    else acc
  }

  /** A wrong password that was compared and recorded. */
  predicate IsFailure(acc: Account, l: Login) { !IsLocked(acc, l.checkAt) && !l.passwordOk && l.updated }

  /** A right password on an open account, the login served and the success recorded. */
  predicate IsReset(acc: Account, l: Login) { !IsLocked(acc, l.checkAt) && l.passwordOk && l.served && l.updated }

  function Failures(max: int, lockout: int, acc: Account, logins: seq<Login>): nat
    decreases |logins|
  {
    if logins == [] then 0
    else (if IsFailure(acc, logins[0]) then 1 else 0) + Failures(max, lockout, After(max, lockout, acc, logins[0]), logins[1..])
  }

  function Resets(max: int, lockout: int, acc: Account, logins: seq<Login>): nat
    decreases |logins|
  {
    if logins == [] then 0
    else (if IsReset(acc, logins[0]) then 1 else 0) + Resets(max, lockout, After(max, lockout, acc, logins[0]), logins[1..])
  }

  /** The failures a new account allows at once. */
  function Threshold(max: int): nat { if max < 1 then 1 else max }

  /** Logins one after the other within [from, until]. */
  predicate Serialised(logins: seq<Login>, from: int, until: int) {
    logins == [] ||
    var l := logins[0];
    from <= l.checkAt <= l.recordAt <= until && Serialised(logins[1..], l.recordAt, until)
  }

  /** Failures still possible before one locks the account. */
  function FreeFailures(max: int, acc: Account): nat { if max - 1 <= acc.failures then 0 else max - 1 - acc.failures }

  /** The earliest time a password can be compared again. */
  function Available(acc: Account, from: int): int {
    if acc.lockedUntil.Some? && acc.lockedUntil.value > from then acc.lockedUntil.value else from
  }

  function Allowance(max: int, lockout: int, acc: Account, from: int, until: int): nat
    requires lockout > 0
  {
    if Available(acc, from) > until then 0
    else FreeFailures(max, acc) + 1 + (until - Available(acc, from)) / lockout
  }

  lemma QuotientUnique(d: int, lockout: int, q: int, rest: int)
    requires 0 <= rest < lockout && d == q * lockout + rest
    ensures d / lockout == q
  {
    var k, m := d / lockout, d % lockout;
    assert (k - q) * lockout == rest - m;
    if k > q {
      assert (k - q) * lockout >= lockout by { Scale(k - q, lockout); }
    } else if k < q {
      assert (q - k) * lockout >= lockout by { Scale(q - k, lockout); }
    }
  }

  lemma Scale(n: int, lockout: int)
    requires n >= 1 && lockout >= 0
    ensures n * lockout >= lockout
  {
  }

  lemma QuotientStep(d: int, lockout: int)
    requires lockout > 0 && d >= lockout
    ensures 1 + (d - lockout) / lockout == d / lockout
  {
    var q, m := (d - lockout) / lockout, (d - lockout) % lockout;
    assert d == (q + 1) * lockout + m;
    QuotientUnique(d, lockout, q + 1, m);
  }

  lemma QuotientMonotone(a: int, b: int, lockout: int)
    requires lockout > 0 && 0 <= a <= b
    ensures 0 <= a / lockout <= b / lockout
  {
    var p, q := a / lockout, b / lockout;
    assert (q - p) * lockout == b - a - b % lockout + a % lockout;
    if p > q {
      Scale(p - q, lockout);
    }
  }

  /** A failure costs one of the allowance; only a recorded success raises it, by no more than the threshold. */
  lemma FailureSpendsAllowance(max: int, lockout: int, acc: Account, l: Login, from: int, until: int)
    requires lockout > 0 && from <= l.checkAt <= l.recordAt <= until
    ensures (if IsFailure(acc, l) then 1 else 0) + Allowance(max, lockout, After(max, lockout, acc, l), l.recordAt, until)
            <= Allowance(max, lockout, acc, from, until) + if IsReset(acc, l) then Threshold(max) else 0
  {
    var acc' := After(max, lockout, acc, l);
    var was, now := Available(acc, from), Available(acc', l.recordAt);
    if now <= until {
      if IsFailure(acc, l) && FreeFailures(max, acc) == 0 {
        assert now == l.recordAt + lockout >= was + lockout;
        QuotientStep(until - was, lockout);
        QuotientMonotone(until - now, until - was - lockout, lockout);
      } else {
        QuotientMonotone(until - now, until - was, lockout);
      }
    } else if was <= until {
      QuotientMonotone(0, until - was, lockout);
    }
  }

  lemma {:induction false} FailuresWithinAllowance(max: int, lockout: int, acc: Account, logins: seq<Login>, from: int, until: int)
    requires lockout > 0 && Serialised(logins, from, until)
    ensures Failures(max, lockout, acc, logins) <= Allowance(max, lockout, acc, from, until) + Threshold(max) * Resets(max, lockout, acc, logins)
    decreases |logins|
  {
    if logins != [] {
      Distribute(Threshold(max), Resets(max, lockout, After(max, lockout, acc, logins[0]), logins[1..]));
      FailureSpendsAllowance(max, lockout, acc, logins[0], from, until);
      FailuresWithinAllowance(max, lockout, After(max, lockout, acc, logins[0]), logins[1..], logins[0].recordAt, until);
    }
  }

  lemma Distribute(k: int, n: int)
    ensures k * (1 + n) == k + k * n
  {
  }

  /** Over any elapsed time T, from any state of the account, the recorded failures number at most
      max(1, maxFailures) times one more than the recorded successes, plus floor(T / lockout). */
  lemma FailureRateIsBounded(max: int, lockout: int, acc: Account, logins: seq<Login>, from: int, until: int)
    requires lockout > 0 && from <= until && Serialised(logins, from, until)
    ensures var threshold := if max < 1 then 1 else max;
            Failures(max, lockout, acc, logins) <= threshold * (1 + Resets(max, lockout, acc, logins)) + (until - from) / lockout
  {
    FailuresWithinAllowance(max, lockout, acc, logins, from, until);
    Distribute(Threshold(max), Resets(max, lockout, acc, logins));
    if Available(acc, from) <= until {
      QuotientMonotone(until - Available(acc, from), until - from, lockout);
    } else {
      QuotientMonotone(0, until - from, lockout);
    }
  }

  /** A recorded success opens the account with the whole allowance of a new one; a locked account and a right
      password that is not served or not recorded change nothing. */
  lemma SuccessRestoresAllowance(max: int, lockout: int, acc: Account, l: Login, until: int)
    requires lockout > 0 && l.recordAt <= until
    ensures var acc' := After(max, lockout, acc, l);
            if IsReset(acc, l) then
              && (forall now :: !IsLocked(acc', now))
              && Allowance(max, lockout, acc', l.recordAt, until) == (if max < 1 then 1 else max) + (until - l.recordAt) / lockout
            else IsLocked(acc, l.checkAt) || l.passwordOk ==> acc' == acc
  {
  }

  /** Wrong passwords, each tried the moment the account allows one. */
  function EagerFailures(max: int, lockout: int, acc: Account, from: int, n: nat): seq<Login>
    decreases n
  {
    if n == 0 then []
    else
      var l := Login(Available(acc, from), Available(acc, from), false, false, true);
      [l] + EagerFailures(max, lockout, After(max, lockout, acc, l), l.recordAt, n - 1)
  }

  /** The allowance is exact: from any state, that many failures do fit. For a new account it is
      maxFailures + floor(T / lockout), so the bound of `FailureRateIsBounded` is reached. */
  lemma {:induction false} AllowanceIsReached(max: int, lockout: int, acc: Account, from: int, until: int, n: nat)
    requires lockout > 0 && n <= Allowance(max, lockout, acc, from, until)
    ensures Serialised(EagerFailures(max, lockout, acc, from, n), from, until)
    ensures Failures(max, lockout, acc, EagerFailures(max, lockout, acc, from, n)) == n
    ensures max >= 1 && from <= until ==>
              Allowance(max, lockout, Account(0, None), from, until) == max + (until - from) / lockout
    decreases n
  {
    if n > 0 {
      var at := Available(acc, from);
      var l := Login(at, at, false, false, true);
      var acc' := After(max, lockout, acc, l);
      if FreeFailures(max, acc) == 0 && at + lockout <= until {
        QuotientStep(until - at, lockout);
      } else if FreeFailures(max, acc) == 0 {
        QuotientUnique(until - at, lockout, 0, until - at);
      }
      AllowanceIsReached(max, lockout, acc', at, until, n - 1);
      assert EagerFailures(max, lockout, acc, from, n)[1..] == EagerFailures(max, lockout, acc', at, n - 1);
    }
  }

  function Hammer(n: nat): seq<Login> { if n == 0 then [] else [Login(0, 0, false, false, true)] + Hammer(n - 1) }

  /** The lockout must be positive: with a lockout of zero any number of failures fits into no time at all. */
  lemma {:induction false} ZeroLockoutBoundsNothing(max: int, acc: Account, n: nat)
    requires !IsLocked(acc, 0)
    ensures Serialised(Hammer(n), 0, 0) && Failures(max, 0, acc, Hammer(n)) == n
    decreases n
  {
    if n > 0 {
      assert Hammer(n)[1..] == Hammer(n - 1);
      ZeroLockoutBoundsNothing(max, After(max, 0, acc, Hammer(n)[0]), n - 1);
    }
  }

  class User {
    var failedLoginCount: nat
    var lockedUntil: Option<int>

    ghost function View(): Account
      reads this
    {
      Account(failedLoginCount, lockedUntil)
    }

    constructor ()
      ensures View() == Account(0, None)
    {
      failedLoginCount, lockedUntil := 0, None;
    }

    /** The password part of `Login`. */
    method TryPassword(max: int, lockout: int, l: Login) returns (r: Reply)
      modifies this
      ensures View() == After(max, lockout, old(View()), l)
      ensures r ==
              if IsLocked(old(View()), l.checkAt) then Locked
              else if !l.passwordOk then WrongPassword
              else if l.served then LoggedIn
              else ServerError
    {
      if lockedUntil.Some? && lockedUntil.value > l.checkAt {
        return Locked;
      }
      if !l.passwordOk {
        if l.updated {
          failedLoginCount := failedLoginCount + 1;
          if failedLoginCount >= max {
            lockedUntil := Some(l.recordAt + lockout);
          }
        }
        return WrongPassword;
      }
      if !l.served {
        return ServerError;
      }
      if l.updated {
        failedLoginCount, lockedUntil := 0, None;
      }
      return LoggedIn;
    }
  }
}
