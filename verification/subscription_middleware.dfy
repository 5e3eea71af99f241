/**
 * The quota gate in front of every model call: a fixed table of token limits per
 * tier, a missing tier read as "Free", a missing (or falsy) token count read as 0,
 * and a request refused with 403 once the count has reached the limit.
 */
module SubscriptionMiddleware {
  import opened Common
  import opened Store

  /** What `subscriptionLimits[tier]` evaluates to. */
  datatype Limit = Finite(n: int) | Infinite | Undefined

  function TokenLimit(tier: string): Limit {
    if tier == "Free" then Finite(1000)
    else if tier == "Pro" then Finite(10000)
    else if tier == "Premium" then Infinite
    else Undefined
  }

  /**
   * JavaScript `count >= limit` for a finite count: a number is never `>=` Infinity,
   * and a comparison with `undefined` (NaN) is false.
   */
  predicate ReachesLimit(count: int, limit: Limit) {
    limit.Finite? && count >= limit.n
  }

  /** `userData.subscriptionTier || 'Free'`. */
  function EffectiveTier(u: UserDoc): string {
    OrElse(u.subscriptionTier, "Free")
  }

  /** `userData.tokenCount || 0`: 0 and NaN are falsy, so both read as 0. */
  function EffectiveCount(u: UserDoc): int {
    match u.tokenCount
    case Some(Num(n)) => n
    case _ => 0
  }

  /** The part of `req.user` the gate reads and writes. */
  datatype ReqUser = ReqUser(uid: string, subscriptionTier: Option<string>, tokenCount: Option<int>)

  /**
   * `subscriptionMiddleware` given the read of `users/{uid}`: a failed read is a 500, a
   * missing document a 404, a count at or over the tier's limit a 403; otherwise the
   * effective tier and count are copied onto the request and the handler runs.
   */
  function CheckSubscription(user: ReqUser, read: Lookup<Option<UserDoc>>): (g: Gate<ReqUser>)
    ensures read.LookupFailed? <==> g == Halt(500, "Subscription check failed.")
    ensures read == Found(None) <==> g == Halt(404, "User data not found.")
    ensures read.Found? && read.value.Some? ==>
      (g == Halt(403, "Token limit exceeded.") <==>
        ReachesLimit(EffectiveCount(read.value.value), TokenLimit(EffectiveTier(read.value.value))))
    ensures g.Next? ==> read.Found? && read.value.Some?
    ensures g.Next? ==>
      g.value == user.(subscriptionTier := Some(EffectiveTier(read.value.value)), tokenCount := Some(EffectiveCount(read.value.value)))
  {
    match read
    case LookupFailed(_) => Halt(500, "Subscription check failed.")
    case Found(None) => Halt(404, "User data not found.")
    case Found(Some(u)) =>
      var tier := EffectiveTier(u);
      var count := EffectiveCount(u);
      if ReachesLimit(count, TokenLimit(tier)) then Halt(403, "Token limit exceeded.")
      else Next(user.(subscriptionTier := Some(tier), tokenCount := Some(count)))
  }

  /** Whether the gate lets a user with this document through. */
  predicate Admits(u: UserDoc) {
    CheckSubscription(ReqUser("", None, None), Found(Some(u))).Next?
  }

  /** A missing or empty tier is checked exactly as "Free". */
  lemma MissingTierIsFree(u: UserDoc)
    requires !Truthy(u.subscriptionTier)
    ensures Admits(u) <==> Admits(u.(subscriptionTier := Some("Free")))
    ensures Admits(u) <==> EffectiveCount(u) < 1000
  {
  }

  /** A missing count, 0 and NaN are all checked as 0. */
  lemma MissingCountIsZero(u: UserDoc)
    requires u.tokenCount.None? || u.tokenCount == Some(NaN)
    ensures Admits(u) <==> Admits(u.(tokenCount := Some(Num(0))))
  {
  }

  /** The limits of the table: Free and Pro deny from 1000 and 10000 on, the count at the limit included. */
  lemma FiniteTiersDenyAtTheLimit(u: UserDoc)
    ensures EffectiveTier(u) == "Free" ==> (Admits(u) <==> EffectiveCount(u) < 1000)
    ensures EffectiveTier(u) == "Pro" ==> (Admits(u) <==> EffectiveCount(u) < 10000)
  {
  }

  /** Premium is never denied, whatever the count. */
  lemma PremiumNeverDenied(u: UserDoc)
    requires u.subscriptionTier == Some("Premium")
    ensures Admits(u)
  {
  }

  /** A tier the table does not name (a lowercase "pro", say) has an undefined limit: always admitted. */
  lemma UnmappedTierNeverDenied(u: UserDoc)
    requires Truthy(u.subscriptionTier)
    requires u.subscriptionTier.value !in {"Free", "Pro", "Premium"}
    ensures Admits(u)
  {
  }

  /** Denial is monotone in the count: a user denied at N is denied at every larger count. */
  lemma DenialMonotone(u: UserDoc, m: int)
    requires !Admits(u)
    requires m >= EffectiveCount(u)
    ensures !Admits(u.(tokenCount := Some(Num(m))))
  {
  }

  /** The gate admits exactly when the tier has a finite limit the count is below, or no finite limit. */
  lemma AdmitsIff(u: UserDoc)
    ensures Admits(u) <==> match TokenLimit(EffectiveTier(u))
      case Finite(n) => EffectiveCount(u) < n
      case _ => true
  {
  }
}
