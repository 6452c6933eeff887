/**
 * The account rules of backend/src/models/User.js: the lock and
 * subscription predicates, the failed-login lockout, the analytics
 * counters, the role permission table and the check order of a
 * credential login.
 *
 * `Date.now()` is the parameter `now` (milliseconds), the stored dates are
 * integers, and a missing date is `None`. The `updateOne` writes of the
 * source go to the stored document; here they update the object's fields.
 */
module Accounts {
  import opened Seqs

  // ---------------------------------------------------------------------
  // Failed-login lockout
  // ---------------------------------------------------------------------

  /** The failures after which an account locks. */
  const MaxAttempts: nat := 5

  /** `2 * 60 * 60 * 1000`: two hours. */
  const LockMillis: nat := 7200000

  /** The stored `loginAttempts` and `lockUntil`. */
  datatype LoginState = LoginState(attempts: nat, lockUntil: Option<int>)

  /** The `isLocked` getter: a lock time is set and still in the future. */
  predicate Locked(s: LoginState, now: int) {
    s.lockUntil.Some? && s.lockUntil.value > now
  }

  /** A lock is set and its time has passed (`lockUntil < Date.now()`). */
  predicate LockExpired(s: LoginState, now: int) {
    s.lockUntil.Some? && s.lockUntil.value < now
  }

  /**
   * What `incLoginAttempts` (User.js:290-307) writes: an expired lock
   * restarts the count at 1 and is removed; otherwise the count rises by 1
   * and, if it reaches 5 while the account is not locked, a two-hour lock
   * starts.
   */
  function FailedLogin(s: LoginState, now: int): (r: LoginState)
    ensures LockExpired(s, now) ==> r == LoginState(1, None)
    ensures !LockExpired(s, now) ==> r.attempts == s.attempts + 1
    ensures Locked(s, now) ==> r.lockUntil == s.lockUntil
  {
    if LockExpired(s, now) then LoginState(1, None)
    else if s.attempts + 1 >= MaxAttempts && !Locked(s, now) then LoginState(s.attempts + 1, Some(now + LockMillis))
    else LoginState(s.attempts + 1, s.lockUntil)
  }

  /**
   * After a failure, the account is locked exactly when it already was or
   * the count has reached 5, unless the failure found an expired lock,
   * which leaves it unlocked.
   */
  lemma LockedAfterFailureIff(s: LoginState, now: int)
    ensures !LockExpired(s, now) ==> (Locked(FailedLogin(s, now), now) <==> Locked(s, now) || s.attempts + 1 >= MaxAttempts)
    ensures LockExpired(s, now) ==> !Locked(FailedLogin(s, now), now)
  {
  }

  /** The failures of a sequence of attempts at the given times, in order. */
  function FailAll(s: LoginState, times: seq<int>): LoginState
    decreases |times|
  {
    if |times| == 0 then s else FailAll(FailedLogin(s, times[0]), times[1..])
  }

  /**
   * While a lock is in force, failed attempts only raise the count: the
   * lock time is never extended, however many attempts are made before it.
   */
  lemma {:induction false} LockNeverExtended(s: LoginState, times: seq<int>)
    requires s.lockUntil.Some?
    requires forall t <- times :: t < s.lockUntil.value
    ensures FailAll(s, times) == LoginState(s.attempts + |times|, s.lockUntil)
    decreases |times|
  {
    if |times| > 0 {
      var next := FailedLogin(s, times[0]);
      assert times[0] in times;
      assert next == LoginState(s.attempts + 1, s.lockUntil);
      assert forall t <- times[1..] :: t in times;
      LockNeverExtended(next, times[1..]);
    }
  }

  /**
   * From a clean state, five failures lock the account for two hours from
   * the fifth one, and the first four lock nothing.
   */
  lemma FifthFailureLocks(t1: int, t2: int, t3: int, t4: int, t5: int)
    ensures FailAll(LoginState(0, None), [t1, t2, t3, t4]) == LoginState(4, None)
    ensures FailAll(LoginState(0, None), [t1, t2, t3, t4, t5]) == LoginState(5, Some(t5 + LockMillis))
    ensures Locked(FailAll(LoginState(0, None), [t1, t2, t3, t4, t5]), t5)
  {
    var s4 := LoginState(4, None);
    assert FailAll(LoginState(0, None), [t1, t2, t3, t4]) == FailAll(LoginState(1, None), [t2, t3, t4]);
    assert FailAll(LoginState(1, None), [t2, t3, t4]) == FailAll(LoginState(2, None), [t3, t4]);
    assert FailAll(LoginState(2, None), [t3, t4]) == FailAll(LoginState(3, None), [t4]);
    assert FailAll(LoginState(0, None), [t1, t2, t3, t4, t5]) == FailAll(LoginState(1, None), [t2, t3, t4, t5]);
    assert FailAll(LoginState(1, None), [t2, t3, t4, t5]) == FailAll(LoginState(2, None), [t3, t4, t5]);
    assert FailAll(LoginState(2, None), [t3, t4, t5]) == FailAll(LoginState(3, None), [t4, t5]);
    assert FailAll(LoginState(3, None), [t4, t5]) == FailAll(s4, [t5]);
  }

  // ---------------------------------------------------------------------
  // Permissions
  // ---------------------------------------------------------------------

  /** The `permissions` table of `hasPermission`; an unknown role falls back to `user`. */
  function PermissionsOf(role: string): seq<string> {
    if role == "admin" then ["all"]
    else if role == "premium" then ["career_analysis", "advanced_features", "priority_support"]
    else ["basic_features"]
  }

  /** `hasPermission(permission)` for a user of the given role (User.js:324-333). */
  predicate RoleHasPermission(role: string, permission: string) {
    var granted := PermissionsOf(role);
    "all" in granted || permission in granted
  }

  /**
   * Admins hold every permission; premium users hold exactly the three
   * premium ones (not `basic_features`); every other role holds only
   * `basic_features`.
   */
  lemma PermissionTable(role: string, permission: string)
    ensures role == "admin" ==> RoleHasPermission(role, permission)
    ensures role == "premium" ==> (RoleHasPermission(role, permission) <==>
      permission in {"career_analysis", "advanced_features", "priority_support"})
    ensures role != "admin" && role != "premium" ==> (RoleHasPermission(role, permission) <==> permission == "basic_features")
  {
  }

  /** Premium users lack `basic_features`, which plain users hold. */
  lemma PremiumLacksBasicFeatures()
    ensures !RoleHasPermission("premium", "basic_features")
    ensures RoleHasPermission("user", "basic_features")
  {
  }

  // ---------------------------------------------------------------------
  // The user document
  // ---------------------------------------------------------------------

  const InvalidCredentials: string := "Invalid login credentials"
  const LockedMessage: string := "Account temporarily locked due to too many failed login attempts"
  const SuspendedMessage: string := "Account has been suspended. Please contact support."

  /** What `findByCredentials` ends with: the user, or the message of the error it throws. */
  datatype LoginOutcome = LoggedIn | Rejected(message: string)

  /**
   * The fields of a user the core reads or writes; `subscription.plan`,
   * `subscription.isActive` and `subscription.endDate` are flattened.
   */
  class User {
    var id: string
    var email: string
    var role: string
    var status: string
    var isVerified: bool
    var loginAttempts: nat
    var lockUntil: Option<int>
    var lastLogin: Option<int>
    var plan: string
    var subscriptionActive: bool
    var subscriptionEnd: Option<int>
    /** The numeric `analytics` counters by name (profileViews, careerAnalysisCount, ...). */
    var analytics: map<string, int>

    /** The stored lockout fields. */
    function Login(): LoginState
      reads this
    {
      LoginState(loginAttempts, lockUntil)
    }

    /** The `isLocked` getter (User.js:180-182). */
    predicate IsLocked(now: int)
      reads this
    {
      Locked(Login(), now)
    }

    /** The `isSubscriptionActive` getter (User.js:185-189): active flag, an end date, and that date in the future. */
    predicate IsSubscriptionActive(now: int)
      reads this
    {
      subscriptionActive && subscriptionEnd.Some? && subscriptionEnd.value > now
    }

    /** `hasPermission(permission)` (User.js:324-333). */
    predicate HasPermission(permission: string)
      reads this
    {
      RoleHasPermission(role, permission)
    }

    /** `incLoginAttempts()` (User.js:290-307). */
    method IncLoginAttempts(now: int)
      modifies this`loginAttempts, this`lockUntil
      ensures Login() == FailedLogin(old(Login()), now)
    {
      if lockUntil.Some? && lockUntil.value < now {
        loginAttempts, lockUntil := 1, None;
        return;
      }
      var startLock := loginAttempts + 1 >= MaxAttempts && !IsLocked(now);
      loginAttempts := loginAttempts + 1;
      if startLock {
        lockUntil := Some(now + LockMillis);
      }
    }

    /** `resetLoginAttempts()` (User.js:310-314): both lockout fields are removed, so the count reads 0. */
    method ResetLoginAttempts()
      modifies this`loginAttempts, this`lockUntil
      ensures Login() == LoginState(0, None)
    {
      loginAttempts, lockUntil := 0, None;
    }

    /**
     * `updateAnalytics(field, increment = 1)` (User.js:317-321): adds
     * `increment` to the named counter and to nothing else; a name that is
     * not a counter of the schema changes nothing.
     */
    method UpdateAnalytics(field: string, increment: int := 1)
      modifies this`analytics
      ensures analytics.Keys == old(analytics.Keys)
      ensures field in analytics ==> analytics[field] == old(analytics[field]) + increment
      ensures forall f <- analytics.Keys :: f != field ==> analytics[f] == old(analytics[f])
    {
      if field in analytics {
        analytics := analytics[field := analytics[field] + increment];
      }
    }
  }

  /**
   * The `isLocked` and `isSubscriptionActive` getters (User.js:180-189): a
   * lock or subscription without a date is never in force, and once its
   * date has passed it stays over as time goes on.
   */
  lemma GettersExpire(u: User, now: int, later: int)
    requires now <= later
    ensures u.lockUntil.None? ==> !u.IsLocked(now)
    ensures u.subscriptionEnd.None? || !u.subscriptionActive ==> !u.IsSubscriptionActive(now)
    ensures u.IsLocked(later) ==> u.IsLocked(now)
    ensures u.IsSubscriptionActive(later) ==> u.IsSubscriptionActive(now)
  {
  }

  /**
   * `User.findByCredentials(email, password)` (User.js:336-371), with the
   * lookup by email done: `found` is the stored user or null, and
   * `passwordMatches` is the bcrypt comparison. The checks run in order:
   * unknown email, lock (the attempt is still counted, even with the right
   * password), suspension (nothing counted), wrong password (counted);
   * success clears a non-zero count and records the login time.
   */
  method FindByCredentials(found: User?, passwordMatches: bool, now: int) returns (outcome: LoginOutcome)
    modifies found
    ensures found == null ==> outcome == Rejected(InvalidCredentials)
    ensures found != null ==>
      (found.id == old(found.id) && found.role == old(found.role)
       && found.status == old(found.status) && found.plan == old(found.plan)
       && found.email == old(found.email) && found.isVerified == old(found.isVerified)
       && found.subscriptionActive == old(found.subscriptionActive)
       && found.subscriptionEnd == old(found.subscriptionEnd) && found.analytics == old(found.analytics))
    ensures found != null && old(found.IsLocked(now)) ==>
      outcome == Rejected(LockedMessage) && found.Login() == FailedLogin(old(found.Login()), now)
      && found.lastLogin == old(found.lastLogin)
    ensures found != null && !old(found.IsLocked(now)) && old(found.status) == "suspended" ==>
      outcome == Rejected(SuspendedMessage) && found.Login() == old(found.Login())
      && found.lastLogin == old(found.lastLogin)
    ensures found != null && !old(found.IsLocked(now)) && old(found.status) != "suspended" && !passwordMatches ==>
      outcome == Rejected(InvalidCredentials) && found.Login() == FailedLogin(old(found.Login()), now)
      && found.lastLogin == old(found.lastLogin)
    ensures found != null && !old(found.IsLocked(now)) && old(found.status) != "suspended" && passwordMatches ==>
      outcome == LoggedIn && found.lastLogin == Some(now)
      && found.Login() == (if old(found.loginAttempts) > 0 then LoginState(0, None) else old(found.Login()))
  {
    if found == null {
      return Rejected(InvalidCredentials);
    }
    if found.IsLocked(now) {
      found.IncLoginAttempts(now);
      return Rejected(LockedMessage);
    }
    if found.status == "suspended" {
      return Rejected(SuspendedMessage);
    }
    if !passwordMatches {
      found.IncLoginAttempts(now);
      return Rejected(InvalidCredentials);
    }
    if found.loginAttempts > 0 {
      found.ResetLoginAttempts();
    }
    found.lastLogin := Some(now);
    outcome := LoggedIn;
  }

  /** A correct password does not get past a lock: the attempt is counted and the lock kept. */
  lemma LockedRejectsCorrectPassword(s: LoginState, now: int)
    requires Locked(s, now)
    ensures FailedLogin(s, now) == LoginState(s.attempts + 1, s.lockUntil)
    ensures Locked(FailedLogin(s, now), now)
  {
  }
}
