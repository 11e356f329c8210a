/** Subscriptions (the `Subscription` model) and the entitlement predicates
    `isActive`, `hasCallAccess` and `hasNotificationAccess`. */
module Subscriptions {
  import opened Base

  datatype Plan = Free | Basic | Premium
  datatype SubscriptionStatus = Active | Expired | Cancelled

  /** A document of the subscription collection (one per user). `amount` and the
      period dates are absent until a payment is verified. */
  datatype SubscriptionRecord = SubscriptionRecord(
    user: Id,
    plan: Plan,
    status: SubscriptionStatus,
    razorpayOrderId: Option<string>,
    razorpayPaymentId: Option<string>,
    amount: Option<nat>,
    currentPeriodStart: Option<Time>,
    currentPeriodEnd: Option<Time>)

  /** `Subscription.create({ user, plan: 'free' })`: the schema defaults. */
  function DefaultSubscription(user: Id): (s: SubscriptionRecord)
    ensures s.user == user && s.plan == Free && s.status == Active && s.currentPeriodEnd.None?
  {
    SubscriptionRecord(user, Free, Active, None, None, None, None, None)
  }

  /** `currentPeriodEnd > now`; a missing date compares false. */
  predicate EndsAfter(s: SubscriptionRecord, now: Time) {
    s.currentPeriodEnd.Some? && s.currentPeriodEnd.value > now
  }

  /** `subscription.isActive()` at time `now`. */
  predicate IsActive(s: SubscriptionRecord, now: Time) {
    s.status == Active && s.plan != Free && EndsAfter(s, now)
  }

  /** `subscription.hasCallAccess()`. */
  predicate HasCallAccess(s: SubscriptionRecord, now: Time) {
    IsActive(s, now) && s.plan == Premium
  }

  /** `subscription.hasNotificationAccess()`. */
  predicate HasNotificationAccess(s: SubscriptionRecord, now: Time) {
    IsActive(s, now) && (s.plan == Basic || s.plan == Premium)
  }

  /** A free subscription is never active, whatever its status and dates. */
  lemma FreeNeverActive(s: SubscriptionRecord, now: Time)
    requires s.plan == Free
    ensures !IsActive(s, now) && !HasCallAccess(s, now) && !HasNotificationAccess(s, now)
  {
  }

  /** Over the three-plan enum, notification access is exactly being active. */
  lemma NotificationAccessIsActive(s: SubscriptionRecord, now: Time)
    ensures HasNotificationAccess(s, now) <==> IsActive(s, now)
  {
  }

  /** Call access is notification access on the premium plan. */
  lemma CallAccessImpliesNotificationAccess(s: SubscriptionRecord, now: Time)
    ensures HasCallAccess(s, now) ==> HasNotificationAccess(s, now)
    ensures HasCallAccess(s, now) <==> HasNotificationAccess(s, now) && s.plan == Premium
  {
  }

  /** The default subscription is 'active' in status but not `isActive`. */
  lemma DefaultNotActive(user: Id, now: Time)
    ensures DefaultSubscription(user).status == Active && !IsActive(DefaultSubscription(user), now)
  {
  }
}
