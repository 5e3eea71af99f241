/**
 * How the payment side and the quota gate meet. The webhook stores the plan names
 * "free", "pro" and "premium" in lower case, while the quota table names its tiers
 * "Free", "Pro" and "Premium". A tier written by the webhook therefore has no limit
 * in the table, and a subscribed user is never refused, whatever the count; only a
 * user the webhook never touched is held to the "Free" limit.
 */
module TierMapping {
  import opened Common
  import opened Store
  import PaymentRoutes
  import SubscriptionMiddleware

  /** Every plan name `planMapping[price] || 'free'` produces is missing from the limit table. */
  lemma {:induction false} PlanNamesHaveNoLimit(priceId: Option<string>)
    ensures PaymentRoutes.PlanFor(priceId).Ok? ==>
      SubscriptionMiddleware.TokenLimit(PaymentRoutes.PlanFor(priceId).value) == SubscriptionMiddleware.Undefined
  {
    var plan := PaymentRoutes.PlanFor(priceId);
    assert plan.Ok? ==> plan.value in {"free", "pro", "premium"};
  }

  /**
   * After a webhook that updated `uid`, the user is admitted whatever their token
   * count: the stored tier is one of the lowercase plan names, a cancellation included.
   */
  lemma {:induction false} SubscribedUserNeverDenied(users: map<string, UserDoc>, constructed: Result<PaymentRoutes.StripeEvent>,
                                                     retrieve: Option<string> -> Result<PaymentRoutes.Subscription>, uid: string)
    requires PaymentRoutes.Webhook(users, constructed, retrieve).Received?
    requires uid in users
    requires PaymentRoutes.Webhook(users, constructed, retrieve).users[uid].subscriptionTier != users[uid].subscriptionTier
    ensures SubscriptionMiddleware.Admits(PaymentRoutes.Webhook(users, constructed, retrieve).users[uid])
  {
    PaymentRoutes.WebhookTiersAreLowercase(users, constructed, retrieve, uid);
    var u := PaymentRoutes.Webhook(users, constructed, retrieve).users[uid];
    SubscriptionMiddleware.UnmappedTierNeverDenied(u);
  }

  /** A user with no tier at all is the only kind held to a limit here: 1000 tokens. */
  lemma NewUserHeldToFreeLimit(u: UserDoc)
    requires u.subscriptionTier.None?
    ensures SubscriptionMiddleware.Admits(u) <==> SubscriptionMiddleware.EffectiveCount(u) < 1000
  {
    SubscriptionMiddleware.MissingTierIsFree(u);
  }

  /** Even a cancelled subscription ("free", lower case) lifts the limit a user without a tier has. */
  lemma {:induction false} CancellationLiftsTheLimit(u: UserDoc)
    requires u.subscriptionTier.None?
    requires SubscriptionMiddleware.EffectiveCount(u) >= 1000
    ensures !SubscriptionMiddleware.Admits(u)
    ensures SubscriptionMiddleware.Admits(u.(subscriptionTier := Some(PaymentRoutes.PlanFor(None).value)))
  {
    NewUserHeldToFreeLimit(u);
    SubscriptionMiddleware.UnmappedTierNeverDenied(u.(subscriptionTier := Some(PaymentRoutes.PlanFor(None).value)));
  }
}
