/**
 * The Stripe side of subscriptions: the two price ids, their inverse `planMapping`
 * with 'free' for anything else, the user record update, and the webhook's dispatch
 * on the event type. Signature checking and the Stripe API are inputs: the outcome of
 * `constructEvent` and a `retrieve` function.
 */
module PaymentRoutes {
  import opened Common
  import opened Store

  const ProPrice: string := "price_1Q9wQVBrGkHC1KDCmwgAvpgw"
  const PremiumPrice: string := "price_1Q9wPjBrGkHC1KDC8SUtaut2"

  /** `prices`: plan name to Stripe price id. */
  const Prices: map<string, string> := map["pro" := ProPrice, "premium" := PremiumPrice]

  /** `planMapping`: Stripe price id to plan name. */
  const PlanMapping: map<string, string> := map[ProPrice := "pro", PremiumPrice := "premium"]

  /**
   * `planMapping[plan] || 'free'`; a `null` price id maps to nothing. `planMapping` is
   * a plain object, so a price id naming an `Object.prototype` member finds that member
   * (a function, or the prototype itself for `__proto__`), which is truthy and becomes
   * the new plan; `update` then refuses the document (`Err`).
   */
  function PlanFor(priceId: Option<string>): (plan: Result<string>)
    ensures priceId.Some? && priceId.value in PlanMapping ==> plan == Ok(PlanMapping[priceId.value])
    ensures priceId.Some? && (priceId.value in ObjectPrototypeNames || priceId.value == ProtoName) ==> plan.Err?
    ensures priceId.None? || (priceId.value !in PlanMapping && priceId.value !in ObjectPrototypeNames && priceId.value != ProtoName)
      ==> plan == Ok("free")
    ensures plan.Ok? ==> plan.value in {"free", "pro", "premium"}
  {
    if priceId.None? then Ok("free")
    else if priceId.value in PlanMapping then Ok(PlanMapping[priceId.value])
    else if priceId.value in ObjectPrototypeNames || priceId.value == ProtoName then Err("Cannot use \"" + priceId.value + "\" as a Firestore value")
    else Ok("free")
  }

  /** The two tables are inverse: each plan's price maps back to that plan, and each price to its plan's price. */
  lemma PlanRoundTrip(plan: string, priceId: string)
    ensures plan in Prices ==> PlanFor(Some(Prices[plan])) == Ok(plan)
    ensures priceId in PlanMapping ==> PlanMapping[priceId] in Prices && Prices[PlanMapping[priceId]] == priceId
  {
    assert ProPrice != PremiumPrice;
  }

  /**
   * Any price id the table does not name and `Object.prototype` does not define, and a
   * missing one, gives 'free'; Stripe's own ids (`price_…`) are all of that kind.
   */
  lemma UnknownPriceIsFree(priceId: Option<string>)
    requires priceId.None? || (priceId.value !in {ProPrice, PremiumPrice} && priceId.value !in ObjectPrototypeNames && priceId.value != ProtoName)
    ensures PlanFor(priceId) == Ok("free")
  {
  }

  /** No id beginning with Stripe's `price_` prefix is an `Object.prototype` name. */
  lemma {:induction false} StripePricesAreNotInherited(priceId: string)
    requires StartsWith(priceId, "price_")
    ensures priceId !in ObjectPrototypeNames && priceId != ProtoName
    ensures PlanFor(Some(priceId)).Ok?
  {
    assert priceId[..6] == "price_";
    assert priceId[1] == 'r' && priceId[2] == 'i';
  }

  /** A price id naming an inherited member makes the update throw instead of storing a plan. */
  lemma InheritedPriceThrows(users: map<string, UserDoc>, userId: string, status: Option<string>, subscriptionId: Option<string>)
    ensures PlanFor(Some("toString")).Err?
    ensures UpdateUserSubscription(users, userId, Some("constructor"), status, subscriptionId).Err?
  {
    assert "toString" in ObjectPrototypeNames && "constructor" in ObjectPrototypeNames;
  }

  /**
   * `updateUserSubscription(userId, plan, status, subscriptionId)`: plan and tier set
   * to the same mapped name, status and id stored verbatim, all other fields and
   * users kept; `update` of a missing document, or with a non-string plan, throws.
   */
  function UpdateUserSubscription(users: map<string, UserDoc>, userId: string, priceId: Option<string>,
                                  status: Option<string>, subscriptionId: Option<string>): (r: Result<map<string, UserDoc>>)
    ensures r.Ok? <==> userId in users && PlanFor(priceId).Ok?
    ensures r.Ok? ==> r.value.Keys == users.Keys
    ensures r.Ok? ==> forall u :: u in users && u != userId ==> r.value[u] == users[u]
    ensures r.Ok? ==> r.value[userId].subscriptionPlan == r.value[userId].subscriptionTier == Some(PlanFor(priceId).value)
    ensures r.Ok? ==> r.value[userId].subscriptionStatus == status && r.value[userId].subscriptionId == subscriptionId
    ensures r.Ok? ==>
      r.value[userId].(subscriptionPlan := None, subscriptionTier := None, subscriptionStatus := None, subscriptionId := None)
      == users[userId].(subscriptionPlan := None, subscriptionTier := None, subscriptionStatus := None, subscriptionId := None)
  {
    match PlanFor(priceId)
    case Err(m) => Err(m)
    case Ok(plan) =>
      if userId !in users then Err("No document to update")
      else
        Ok(users[userId := users[userId].(subscriptionPlan := Some(plan), subscriptionTier := Some(plan),
                                          subscriptionStatus := status, subscriptionId := subscriptionId)])
  }

  /** A Stripe subscription, as far as the webhook reads it: id, `metadata.userId`, item price ids, status. */
  datatype Subscription = Subscription(id: Option<string>, userId: Option<string>, itemPriceIds: seq<string>, status: Option<string>)

  /**
   * `event.data.object`: a subscription for the `customer.subscription.*` events; for
   * an invoice or a checkout session only its `subscription` id is read.
   */
  datatype EventObject = SubscriptionObject(sub: Subscription) | Reference(subscription: Option<string>)

  datatype StripeEvent = StripeEvent(eventType: string, data: EventObject)

  /** How the webhook ends: acknowledged with `{ received: true }`, refused with 400, or thrown before answering. */
  datatype WebhookOutcome = Received(users: map<string, UserDoc>) | BadSignature(message: string) | Threw(message: string)

  /** The subscription an event is about: in the event itself, or fetched by id. */
  function SubscriptionOf(obj: EventObject, retrieve: Option<string> -> Result<Subscription>): Result<Subscription> {
    match obj
    case SubscriptionObject(s) => Ok(s)
    case Reference(id) => retrieve(id)
  }

  /** The price of the first subscription item (`items.data[0].price.id`), which must exist. */
  function FirstPrice(s: Subscription): Result<string> {
    if |s.itemPriceIds| == 0 then Err("Cannot read properties of undefined (reading 'price')")
    else Ok(s.itemPriceIds[0])
  }

  predicate HandledType(t: string) {
    t in {"customer.subscription.created", "customer.subscription.updated", "invoice.payment_succeeded",
          "customer.subscription.deleted", "checkout.session.completed"}
  }

  /**
   * The subscription and id an event updates from: the event's own for
   * created/updated/deleted, the retrieved one (and the object's `subscription`) for
   * invoices and completed checkouts.
   */
  function Source(e: StripeEvent, retrieve: Option<string> -> Result<Subscription>): Result<(Subscription, Option<string>)> {
    match SubscriptionOf(e.data, retrieve)
    case Err(m) => Err(m)
    case Ok(s) =>
      Ok((s, if e.data.Reference? then e.data.subscription else s.id))
  }

  /**
   * `POST /webhook`. A failed signature check answers 400 before anything else; an
   * unhandled type changes nothing; every handled type throws when the subscription
   * has no `metadata.userId`, before any update; a deletion sets 'free', 'canceled'
   * and an empty id; the other handled types take the plan from the first item.
   */
  function Webhook(users: map<string, UserDoc>, constructed: Result<StripeEvent>,
                   retrieve: Option<string> -> Result<Subscription>): (r: WebhookOutcome)
    ensures constructed.Err? ==> r == BadSignature("Webhook Error: " + constructed.msg)
    ensures r.BadSignature? ==> constructed.Err?
    ensures constructed.Ok? && !HandledType(constructed.value.eventType) ==> r == Received(users)
    ensures constructed.Ok? && HandledType(constructed.value.eventType) && Source(constructed.value, retrieve).Ok? ==>
      (!Truthy(Source(constructed.value, retrieve).value.0.userId) ==> r == Threw("userId is missing in the metadata"))
    ensures r.Received? <==>
      (constructed.Ok? &&
       (HandledType(constructed.value.eventType) ==>
          Source(constructed.value, retrieve).Ok? &&
          (var (s, id) := Source(constructed.value, retrieve).value;
           Truthy(s.userId) && s.userId.value in users &&
           (constructed.value.eventType != "customer.subscription.deleted" ==>
              |s.itemPriceIds| > 0 && PlanFor(Some(s.itemPriceIds[0])).Ok?))))
    ensures r.Received? && HandledType(constructed.value.eventType) ==>
      Source(constructed.value, retrieve).Ok? && Truthy(Source(constructed.value, retrieve).value.0.userId)
    ensures r.Received? && constructed.value.eventType == "customer.subscription.deleted" ==>
      var uid := Source(constructed.value, retrieve).value.0.userId.value;
      UpdateUserSubscription(users, uid, None, Some("canceled"), Some("")) == Ok(r.users)
    ensures r.Received? && HandledType(constructed.value.eventType) && constructed.value.eventType != "customer.subscription.deleted" ==>
      var (s, id) := Source(constructed.value, retrieve).value;
      |s.itemPriceIds| > 0 && UpdateUserSubscription(users, s.userId.value, Some(s.itemPriceIds[0]), s.status, id) == Ok(r.users)
  {
    match constructed
    case Err(m) => BadSignature("Webhook Error: " + m)
    case Ok(e) =>
      if !HandledType(e.eventType) then Received(users)
      else
        match Source(e, retrieve)
        case Err(m) => Threw(m)
        case Ok((s, id)) =>
          if !Truthy(s.userId) then Threw("userId is missing in the metadata")
          else
            var update :=
              if e.eventType == "customer.subscription.deleted" then UpdateUserSubscription(users, s.userId.value, None, Some("canceled"), Some(""))
              else match FirstPrice(s)
                case Err(m) => Err(m)
                case Ok(price) => UpdateUserSubscription(users, s.userId.value, Some(price), s.status, id);
            match update
            case Err(m) => Threw(m)
            case Ok(u) => Received(u)
  }

  /** A cancellation leaves the user on 'free' with status 'canceled' and no subscription id. */
  lemma DeletionDowngrades(users: map<string, UserDoc>, s: Subscription, retrieve: Option<string> -> Result<Subscription>)
    requires Truthy(s.userId) && s.userId.value in users
    ensures var r := Webhook(users, Ok(StripeEvent("customer.subscription.deleted", SubscriptionObject(s))), retrieve);
      r.Received? && r.users[s.userId.value].subscriptionTier == Some("free")
      && r.users[s.userId.value].subscriptionPlan == Some("free")
      && r.users[s.userId.value].subscriptionStatus == Some("canceled") && r.users[s.userId.value].subscriptionId == Some("")
  {
  }

  /** Whatever the event, the webhook only ever stores one of the lowercase plan names. */
  lemma WebhookTiersAreLowercase(users: map<string, UserDoc>, constructed: Result<StripeEvent>,
                                 retrieve: Option<string> -> Result<Subscription>, uid: string)
    requires Webhook(users, constructed, retrieve).Received?
    requires uid in users
    ensures var after := Webhook(users, constructed, retrieve).users;
      uid in after && (after[uid].subscriptionTier == users[uid].subscriptionTier
                       || after[uid].subscriptionTier.value in {"free", "pro", "premium"})
  {
  }
}
