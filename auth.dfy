/**
 * The access-control middleware of backend/src/middleware/auth.js: where
 * the token comes from, the rejection order of `protect`, `optionalAuth`,
 * the role, plan, permission and ownership checks, the per-plan rate
 * limit and the completed-profile gate.
 *
 * Each decision is a function of the request's fields; the middleware that
 * write to the request (`protect`, `optionalAuth`, `tierBasedRateLimit`,
 * `requireCompleteProfile`) are methods proved against those functions.
 * `jwt.verify` is the parameter `verify`, and a database lookup is
 * replaced by the document it returns (`found`, null when there is none).
 */
module Auth {
  import opened Seqs
  import opened Text
  import opened Accounts
  import opened Profiles
  import opened Requests

  // ---------------------------------------------------------------------
  // The token
  // ---------------------------------------------------------------------

  /**
   * The token `protect` and `optionalAuth` use: the second space-separated
   * word of an `Authorization` header that starts with "Bearer", and
   * otherwise the `token` cookie. A Bearer header hides the cookie even
   * when it carries no second word.
   */
  function TokenFrom(authorization: string, cookie: string): string {
    if authorization != "" && StartsWith(authorization, "Bearer") then At(Split(authorization, ' '), 1)
    else cookie
  }

  /**
   * "Bearer <token>" yields the token whatever the cookie holds; a header
   * that starts with "Bearer" but has no space yields no token at all; any
   * other header falls back to the cookie.
   */
  lemma TokenSources(token: string, authorization: string, cookie: string)
    requires ' ' !in token
    ensures TokenFrom("Bearer " + token, cookie) == token
    ensures StartsWith(authorization, "Bearer") && ' ' !in authorization ==> TokenFrom(authorization, cookie) == ""
    ensures !StartsWith(authorization, "Bearer") ==> TokenFrom(authorization, cookie) == cookie
  {
    var header := "Bearer " + token;
    assert header == "Bearer" + [' '] + token;
    assert header[..6] == "Bearer";
    SplitAtFirst("Bearer", token, ' ');
    SplitWithoutSeparator(token, ' ');
    if StartsWith(authorization, "Bearer") && ' ' !in authorization {
      SplitWithoutSeparator(authorization, ' ');
    }
  }

  /** The outcome of `jwt.verify`: the decoded payload, or the name of the error it throws. */
  datatype Verified = Decoded(id: string) | JsonWebTokenError | TokenExpiredError | OtherError

  // ---------------------------------------------------------------------
  // protect
  // ---------------------------------------------------------------------

  const NoTokenMessage: string := "Access denied. No token provided."
  const InvalidTokenMessage: string := "Invalid token"
  const ExpiredTokenMessage: string := "Token expired"
  const FailedTokenMessage: string := "Token verification failed"
  const UnknownUserMessage: string := "No user found with this token"
  const InactiveMessage: string := "User account is not active"
  const AccountLockedMessage: string := "User account is temporarily locked"
  const VerifyEmailMessage: string := "Please verify your email to access this resource"

  /** `protect`'s status test: only active and pending accounts get through. */
  predicate AdmitsStatus(status: string) {
    status == "active" || status == "pending"
  }

  /**
   * The decision of `protect` (auth.js:20-87) for the extracted `token`,
   * what verifying it gave, and the user its id names (`found`);
   * `emailVerification` is the `FEATURES.EMAIL_VERIFICATION` switch.
   */
  function ProtectCheck(token: string, verified: Verified, found: User?, emailVerification: bool, now: int): MiddlewareResult
    reads found
  {
    if token == "" then Err(401, NoTokenMessage)
    else match verified
      case JsonWebTokenError => Err(401, InvalidTokenMessage)
      case TokenExpiredError => Err(401, ExpiredTokenMessage)
      case OtherError => Err(401, FailedTokenMessage)
      case Decoded(_) =>
        if found == null then Err(401, UnknownUserMessage)
        else if !AdmitsStatus(found.status) then Err(401, InactiveMessage)
        else if found.IsLocked(now) then Err(401, AccountLockedMessage)
        else if emailVerification && !found.isVerified && found.status == "pending" then Err(401, VerifyEmailMessage)
        else Next
  }

  /**
   * A request passes `protect` exactly when it carries a token that
   * verifies, names an existing user whose account is active or pending
   * and not locked, and that user is not an unverified pending account
   * while verification is required. Every rejection is a 401.
   */
  lemma ProtectPassesIff(token: string, verified: Verified, found: User?, emailVerification: bool, now: int)
    ensures ProtectCheck(token, verified, found, emailVerification, now) == Next <==>
      && token != "" && verified.Decoded? && found != null
      && AdmitsStatus(found.status) && !found.IsLocked(now)
      && !(emailVerification && !found.isVerified && found.status == "pending")
    ensures ProtectCheck(token, verified, found, emailVerification, now).Err? ==>
      ProtectCheck(token, verified, found, emailVerification, now).status == 401
  {
  }

  /**
   * The checks run in order: a missing token is reported before anything
   * else, an inactive status before a lock, and a lock before a missing
   * email verification.
   */
  lemma ProtectRejectionOrder(token: string, verified: Verified, found: User?, emailVerification: bool, now: int)
    ensures token == "" ==> ProtectCheck(token, verified, found, emailVerification, now) == Err(401, NoTokenMessage)
    ensures token != "" && verified.Decoded? && found != null && !AdmitsStatus(found.status) ==>
      ProtectCheck(token, verified, found, emailVerification, now) == Err(401, InactiveMessage)
    ensures token != "" && verified.Decoded? && found != null && AdmitsStatus(found.status) && found.IsLocked(now) ==>
      ProtectCheck(token, verified, found, emailVerification, now) == Err(401, AccountLockedMessage)
    ensures token != "" && verified == TokenExpiredError ==>
      ProtectCheck(token, verified, found, emailVerification, now) == Err(401, ExpiredTokenMessage)
  {
  }

  /** `protect`: on success the found user is attached to the request; on failure the request is left alone. */
  method Protect(req: Request, verify: string -> Verified, found: User?, emailVerification: bool, now: int)
    returns (r: MiddlewareResult)
    modifies req`user
    ensures var token := TokenFrom(req.authorization, req.cookieToken);
      r == ProtectCheck(token, verify(token), found, emailVerification, now)
    ensures req.user == if r.Next? then found else old(req.user)
  {
    var token := TokenFrom(req.authorization, req.cookieToken);
    if token == "" {
      return Err(401, NoTokenMessage);
    }
    var verified := verify(token);
    if verified == JsonWebTokenError {
      return Err(401, InvalidTokenMessage);
    } else if verified == TokenExpiredError {
      return Err(401, ExpiredTokenMessage);
    } else if verified == OtherError {
      return Err(401, FailedTokenMessage);
    }
    if found == null {
      return Err(401, UnknownUserMessage);
    }
    if found.status != "active" && found.status != "pending" {
      return Err(401, InactiveMessage);
    }
    if found.IsLocked(now) {
      return Err(401, AccountLockedMessage);
    }
    if emailVerification && !found.isVerified && found.status == "pending" {
      return Err(401, VerifyEmailMessage);
    }
    req.user := found;
    r := Next;
  }

  // ---------------------------------------------------------------------
  // optionalAuth
  // ---------------------------------------------------------------------

  /** Whether `optionalAuth` (auth.js:169-202) attaches the user: a verified token naming an active account. */
  predicate OptionalAttaches(token: string, verified: Verified, found: User?)
    reads found
  {
    token != "" && verified.Decoded? && found != null && found.status == "active"
  }

  /**
   * `optionalAuth` never rejects. It attaches a user only when that user is
   * active, and does not look at the lock: for an unlocked account it
   * attaches exactly the active users `protect` lets through, while a
   * locked active account is attached here but refused by `protect`.
   */
  lemma OptionalAuthAgainstProtect(token: string, verified: Verified, found: User?, emailVerification: bool, now: int)
    ensures found != null && !found.IsLocked(now) ==>
      (OptionalAttaches(token, verified, found) <==>
       ProtectCheck(token, verified, found, emailVerification, now) == Next && found.status == "active")
    ensures OptionalAttaches(token, verified, found) && found.IsLocked(now) ==>
      ProtectCheck(token, verified, found, emailVerification, now) == Err(401, AccountLockedMessage)
  {
  }

  /** `optionalAuth`: always passes, attaching the user only when `OptionalAttaches` holds. */
  method OptionalAuth(req: Request, verify: string -> Verified, found: User?) returns (r: MiddlewareResult)
    modifies req`user
    ensures r == Next
    ensures var token := TokenFrom(req.authorization, req.cookieToken);
      req.user == if OptionalAttaches(token, verify(token), found) then found else old(req.user)
  {
    var token := TokenFrom(req.authorization, req.cookieToken);
    if token == "" {
      return Next;
    }
    var verified := verify(token);
    if verified.Decoded? && found != null && found.status == "active" {
      req.user := found;
    }
    r := Next;
  }

  // ---------------------------------------------------------------------
  // authorize
  // ---------------------------------------------------------------------

  function RoleRejectedMessage(role: string): string {
    "User role " + role + " is not authorized to access this route"
  }

  /** `authorize(...roles)` (auth.js:90-110). */
  function Authorize(roles: seq<string>, user: User?): MiddlewareResult
    reads user
  {
    if user == null then Err(401, NoUserMessage)
    else if user.role !in roles then Err(403, RoleRejectedMessage(user.role))
    else Next
  }

  /** Without a user the answer is 401; a role outside the list gets 403; any listed role passes. */
  lemma AuthorizeIff(roles: seq<string>, user: User?)
    ensures user == null ==> Authorize(roles, user) == Err(401, NoUserMessage)
    ensures user != null ==> (Authorize(roles, user) == Next <==> user.role in roles)
    ensures user != null && user.role !in roles ==> Authorize(roles, user) == Err(403, RoleRejectedMessage(user.role))
    ensures Authorize([], user) != Next
  {
  }

  // ---------------------------------------------------------------------
  // checkSubscription
  // ---------------------------------------------------------------------

  const PlanHierarchy: seq<string> := ["free", "premium", "enterprise"]
  const ExpiredMessage: string := "Your subscription has expired. Please renew to access this feature."

  /** `planHierarchy.indexOf(plan)`: the plan's rank, or -1 for a plan not in the hierarchy. */
  function PlanIndex(plan: string): (r: int)
    ensures -1 <= r < |PlanHierarchy|
    ensures r >= 0 ==> PlanHierarchy[r] == plan
    ensures r == -1 <==> plan !in PlanHierarchy
  {
    if plan == "free" then 0
    else if plan == "premium" then 1
    else if plan == "enterprise" then 2
    else -1
  }

  function PlanRequiredMessage(requiredPlan: string): string {
    "This feature requires a " + requiredPlan + " subscription"
  }

  /** `checkSubscription(requiredPlan = 'premium')` (auth.js:113-143). */
  function CheckSubscription(user: User?, now: int, requiredPlan: string := "premium"): MiddlewareResult
    reads user
  {
    if user == null then Err(401, NoUserMessage)
    else if user.role == "admin" then Next
    else if PlanIndex(user.plan) < PlanIndex(requiredPlan) then Err(403, PlanRequiredMessage(requiredPlan))
    else if !user.IsSubscriptionActive(now) && user.plan != "free" then Err(403, ExpiredMessage)
    else Next
  }

  /**
   * Admins always pass. Anyone else passes exactly when their plan ranks
   * at least as high as the required one and the subscription is active,
   * where the free plan needs no active subscription.
   */
  lemma SubscriptionPassesIff(user: User?, now: int, requiredPlan: string)
    ensures user != null ==> (CheckSubscription(user, now, requiredPlan) == Next <==>
      user.role == "admin"
      || (PlanIndex(user.plan) >= PlanIndex(requiredPlan) && (user.IsSubscriptionActive(now) || user.plan == "free")))
    ensures (user != null && user.role != "admin" && PlanIndex(user.plan) >= PlanIndex(requiredPlan)
             && !user.IsSubscriptionActive(now) && user.plan != "free") ==>
      CheckSubscription(user, now, requiredPlan) == Err(403, ExpiredMessage)
  {
  }

  /**
   * The hierarchy check: a plan ranked below the required one gets 403; a
   * plan outside the hierarchy fails every requirement inside it; a
   * required plan outside the hierarchy is never refused on rank.
   */
  lemma PlanHierarchyCheck(user: User, now: int, requiredPlan: string)
    requires user.role != "admin"
    ensures PlanIndex(user.plan) < PlanIndex(requiredPlan) ==>
      CheckSubscription(user, now, requiredPlan) == Err(403, PlanRequiredMessage(requiredPlan))
    ensures user.plan !in PlanHierarchy && requiredPlan in PlanHierarchy ==>
      CheckSubscription(user, now, requiredPlan) == Err(403, PlanRequiredMessage(requiredPlan))
    ensures requiredPlan !in PlanHierarchy ==>
      CheckSubscription(user, now, requiredPlan) in {Next, Err(403, ExpiredMessage)}
    ensures user.plan == "free" && requiredPlan == "free" ==> CheckSubscription(user, now, requiredPlan) == Next
  {
  }

  // ---------------------------------------------------------------------
  // checkPermission
  // ---------------------------------------------------------------------

  const NoPermissionMessage: string := "You do not have permission to access this resource"

  /** `checkPermission(permission)` (auth.js:146-166). */
  function CheckPermission(user: User?, permission: string): MiddlewareResult
    reads user
  {
    if user == null then Err(401, NoUserMessage)
    else if !user.HasPermission(permission) then Err(403, NoPermissionMessage)
    else Next
  }

  /**
   * A user passes exactly when the role's permission table grants the
   * permission: admins pass every check, and premium users are refused
   * `basic_features`.
   */
  lemma CheckPermissionIff(user: User?, permission: string)
    ensures CheckPermission(user, permission) == Next <==> user != null && RoleHasPermission(user.role, permission)
    ensures user != null && user.role == "admin" ==> CheckPermission(user, permission) == Next
    ensures user != null && user.role == "premium" ==> CheckPermission(user, "basic_features") == Err(403, NoPermissionMessage)
    ensures user == null ==> CheckPermission(user, permission) == Err(401, NoUserMessage)
  {
    PermissionTable(if user == null then "" else user.role, permission);
    PremiumLacksBasicFeatures();
  }

  // ---------------------------------------------------------------------
  // tierBasedRateLimit
  // ---------------------------------------------------------------------

  /** The limit `tierBasedRateLimit`'s switch picks for a plan. */
  function TierLimit(plan: string, freeLimit: nat, premiumLimit: nat, enterpriseLimit: nat): (r: nat)
    ensures r == freeLimit || r == premiumLimit || r == enterpriseLimit
  {
    if plan == "enterprise" then enterpriseLimit
    else if plan == "premium" then premiumLimit
    else freeLimit
  }

  /**
   * With the default arguments enterprise gets 200 requests, premium 50 and
   * every other plan, unknown ones included, 10. Whenever the limits grow
   * with the plan, so does the limit a user gets along the hierarchy.
   */
  lemma TierLimits(plan: string, other: string, freeLimit: nat, premiumLimit: nat, enterpriseLimit: nat)
    ensures TierLimit(plan, 10, 50, 200) == (if plan == "enterprise" then 200 else if plan == "premium" then 50 else 10)
    ensures plan !in PlanHierarchy ==> TierLimit(plan, freeLimit, premiumLimit, enterpriseLimit) == freeLimit
    ensures freeLimit <= premiumLimit <= enterpriseLimit && PlanIndex(plan) <= PlanIndex(other) ==>
      TierLimit(plan, freeLimit, premiumLimit, enterpriseLimit) <= TierLimit(other, freeLimit, premiumLimit, enterpriseLimit)
  {
  }

  /**
   * `tierBasedRateLimit` (auth.js:205-233): with a user, stores the plan's
   * limit and the plan in `req.rateLimit`; without one, changes nothing.
   * It never rejects.
   */
  method TierBasedRateLimit(req: Request, freeLimit: nat := 10, premiumLimit: nat := 50, enterpriseLimit: nat := 200)
    returns (r: MiddlewareResult)
    modifies req`rateLimit
    ensures r == Next
    ensures req.user == null ==> req.rateLimit == old(req.rateLimit)
    ensures req.user != null ==>
      req.rateLimit == Some(RateLimit(TierLimit(req.user.plan, freeLimit, premiumLimit, enterpriseLimit), req.user.plan))
  {
    if req.user == null {
      return Next;
    }
    var plan := req.user.plan;
    var limit;
    if plan == "enterprise" {
      limit := enterpriseLimit;
    } else if plan == "premium" {
      limit := premiumLimit;
    } else {
      limit := freeLimit;
    }
    req.rateLimit := Some(RateLimit(limit, plan));
    r := Next;
  }

  // ---------------------------------------------------------------------
  // checkOwnership
  // ---------------------------------------------------------------------

  const MissingIdMessage: string := "Resource ID is required"
  const NotOwnerMessage: string := "Access denied. You can only access your own resources."

  /** `req.params.id || req.params.userId || req.body.id`, or `None` when all three are falsy. */
  function ResourceId(paramId: string, paramUserId: string, body: Json): (r: Option<Json>)
    ensures r.Some? <==> paramId != "" || paramUserId != "" || Truthy(Member(body, "id"))
    ensures paramId != "" ==> r == Some(JString(paramId))
  {
    if paramId != "" then Some(JString(paramId))
    else if paramUserId != "" then Some(JString(paramUserId))
    else if Truthy(Member(body, "id")) then Member(body, "id")
    else None
  }

  /** `checkOwnership(resourceField = 'user')` (auth.js:236-261); the user's `_id` is compared as a string. */
  function CheckOwnership(user: User?, paramId: string, paramUserId: string, body: Json, resourceField: string := "user"): MiddlewareResult
    reads user
  {
    if user == null then Err(401, NoUserMessage)
    else if user.role == "admin" then Next
    else
      var id := ResourceId(paramId, paramUserId, body);
      if id.None? then Err(400, MissingIdMessage)
      else if resourceField == "user" && id.value != JString(user.id) then Err(403, NotOwnerMessage)
      else Next
  }

  /**
   * Admins pass without any id. Anyone else needs an id (400 otherwise)
   * and, when the resource field is "user", the id must be their own
   * (403 otherwise); for another resource field any id passes.
   */
  lemma OwnershipPassesIff(user: User, paramId: string, paramUserId: string, body: Json, resourceField: string)
    ensures user.role == "admin" ==> CheckOwnership(user, paramId, paramUserId, body, resourceField) == Next
    ensures user.role != "admin" ==>
      (CheckOwnership(user, paramId, paramUserId, body, resourceField) == Next <==>
       var id := ResourceId(paramId, paramUserId, body);
       id.Some? && (resourceField != "user" || id.value == JString(user.id)))
    ensures user.role != "admin" && ResourceId(paramId, paramUserId, body).None? ==>
      CheckOwnership(user, paramId, paramUserId, body, resourceField) == Err(400, MissingIdMessage)
  {
  }

  /**
   * The route's `id` parameter decides, even when `userId` names the
   * caller; and a numeric `id` in the body never equals the string id.
   */
  lemma OwnershipFirstIdDecides(user: User, paramId: string, paramUserId: string, body: Json, n: int)
    requires user.role != "admin"
    ensures paramId != "" && paramId != user.id ==>
      CheckOwnership(user, paramId, paramUserId, body) == Err(403, NotOwnerMessage)
    ensures n != 0 ==>
      CheckOwnership(user, "", "", JObject([("id", JNumber(n))])) == Err(403, NotOwnerMessage)
  {
  }

  // ---------------------------------------------------------------------
  // requireCompleteProfile
  // ---------------------------------------------------------------------

  const NoProfileMessage: string := "Please complete your profile to access this feature"
  const IncompleteMessage: string := "Please complete at least 50% of your profile to access this feature"

  /** The completion a profile needs. */
  const RequiredCompletion: nat := 50

  /** The decision of `requireCompleteProfile` (auth.js:264-283) for the user's profile `found`. */
  function CompleteProfileCheck(user: User?, found: Profile?): MiddlewareResult
    reads found
  {
    if user == null then Err(401, NoUserMessage)
    else if found == null then Err(400, NoProfileMessage)
    else if found.Score() < RequiredCompletion then Err(400, IncompleteMessage)
    else Next
  }

  /**
   * A request passes exactly when there is a user with a profile that is
   * at least half complete. A profile that passes every completion test
   * passes, and completing more of a passing profile keeps it passing.
   */
  lemma CompleteProfilePassesIff(user: User?, p: Profile, q: Profile)
    ensures CompleteProfileCheck(user, p) == Next <==> user != null && p.Score() >= RequiredCompletion
    ensures CompleteProfileCheck(user, null) != Next
    ensures user != null && (forall k :: 0 <= k < TestCount ==> p.Passes(k)) ==> CompleteProfileCheck(user, p) == Next
    ensures CompleteProfileCheck(user, p) == Next && (forall k :: 0 <= k < TestCount ==> p.Passes(k) ==> q.Passes(k)) ==>
      CompleteProfileCheck(user, q) == Next
  {
    ScoreRange(p);
    if forall k :: 0 <= k < TestCount ==> p.Passes(k) ==> q.Passes(k) {
      ScoreMonotone(p, q);
    }
  }

  /**
   * `requireCompleteProfile`: computes the profile's completion and, when
   * the request passes, attaches the profile to it.
   */
  method RequireCompleteProfile(req: Request, found: Profile?) returns (r: MiddlewareResult)
    modifies req`profile
    ensures r == CompleteProfileCheck(req.user, found)
    ensures req.profile == if r.Next? then found else old(req.profile)
  {
    if req.user == null {
      return Err(401, NoUserMessage);
    }
    if found == null {
      return Err(400, NoProfileMessage);
    }
    var completion := found.CompletionPercentage();
    if completion < RequiredCompletion {
      return Err(400, IncompleteMessage);
    }
    req.profile := found;
    r := Next;
  }
}
