/** The subscription routes: the plan catalogue, the caller's plan (created on
    first sight, expired when its period is over), the payment order and the
    payment verification that activates a paid plan for 30 days. The payment
    provider's order creation and the HMAC of the signature check are parameters. */
module SubscriptionRoutes {
  import opened Base
  import opened Http
  import opened Subscriptions
  import opened Store

  const PAYMENTS_OFF := "Payments not configured"
  const INVALID_PLAN_CHOICE := "Invalid plan. Choose basic or premium."
  const ORDER_FAILED := "Failed to create payment order"
  const MISSING_FIELDS := "Missing payment verification fields"
  const INVALID_PLAN := "Invalid plan"
  const PAYMENT_REJECTED := "Payment verification failed"
  const PERIOD_DAYS := 30

  /** An entry of the plan catalogue; prices are in paise. */
  datatype Offer = Offer(name: string, amount: nat, currency: string, notificationCredits: nat, callCredits: nat,
                         features: seq<string>)

  /** `PLANS[plan]` for the paid plans; the free plan is only in the catalogue reply. */
  function OfferOf(p: Plan): Offer {
    match p
    case Free => Offer("Free", 0, "INR", 0, 0, ["Register vehicles", "QR code generation", "Basic scan alerts"])
    case Basic => Offer("Basic", 14900, "INR", 25, 25,
                        ["25 notification credits/month", "25 call credits/month", "Scan activity history"])
    case Premium => Offer("Premium", 29900, "INR", 50, 50,
                          ["50 notification credits/month", "50 call credits/month", "Priority support", "Advanced scan analytics"])
  }

  /** `PLANS[plan]` is truthy: the two own keys of the catalogue. */
  function PaidPlanNamed(name: string): (p: Option<Plan>)
    ensures p.Some? ==> p.value != Free
    ensures p.Some? <==> name == "basic" || name == "premium"
  {
    if name == "basic" then Some(Basic) else if name == "premium" then Some(Premium) else None
  }

  /** The body of `GET /api/subscription/plans`. */
  datatype Catalogue = Catalogue(paymentsEnabled: bool, callsEnabled: bool, notificationsEnabled: bool, plans: seq<(string, Offer)>)

  function Plans(f: Features): (c: Catalogue)
    ensures |c.plans| == 3 && c.plans[0] == ("free", OfferOf(Free))
    ensures forall i | 1 <= i < |c.plans| :: PaidPlanNamed(c.plans[i].0).Some? && c.plans[i].1 == OfferOf(PaidPlanNamed(c.plans[i].0).value)
  {
    Catalogue(f.razorpay, f.calls, f.notifications, [("free", OfferOf(Free)), ("basic", OfferOf(Basic)), ("premium", OfferOf(Premium))])
  }

  /** The paid plans are ordered: premium costs more and grants at least as much. */
  lemma PremiumAboveBasic()
    ensures OfferOf(Premium).amount > OfferOf(Basic).amount > OfferOf(Free).amount
    ensures OfferOf(Premium).callCredits >= OfferOf(Basic).callCredits
    ensures OfferOf(Premium).notificationCredits >= OfferOf(Basic).notificationCredits
  {
  }

  /** The body of `GET /api/subscription/my-plan`. */
  datatype PlanStatus = PlanStatus(
    plan: Plan, status: SubscriptionStatus, amount: Option<nat>,
    currentPeriodStart: Option<Time>, currentPeriodEnd: Option<Time>, isActive: bool)

  /** The caller's subscription, or the default one `create` would insert. */
  function CurrentSubscription(d: Data, caller: Id): (s: SubscriptionRecord)
    ensures caller !in d.subscriptions ==> s == DefaultSubscription(caller)
  {
    if caller in d.subscriptions then d.subscriptions[caller] else DefaultSubscription(caller)
  }

  /** A paid plan whose period end lies strictly before `now`. */
  predicate Lapsed(s: SubscriptionRecord, now: Time) {
    s.plan != Free && s.currentPeriodEnd.Some? && s.currentPeriodEnd.value < now
  }

  /** `GET /api/subscription/my-plan`: create the free subscription when there is
      none, mark a lapsed paid plan 'expired', and report a free plan as active. */
  function MyPlan(d: Data, caller: Id, now: Time): (o: Outcome<PlanStatus>)
    ensures o.reply.Ok? && caller in o.data.subscriptions
    ensures o.data == d.(subscriptions := o.data.subscriptions)
    ensures o.data.subscriptions.Keys == d.subscriptions.Keys + {caller}
    ensures forall u | u in d.subscriptions && u != caller :: o.data.subscriptions[u] == d.subscriptions[u]
  {
    var s := CurrentSubscription(d, caller);
    var s2 := if Lapsed(s, now) then s.(status := Expired) else s;
    Outcome(d.(subscriptions := d.subscriptions[caller := s2]),
            Ok(200, PlanStatus(s2.plan, s2.status, s2.amount, s2.currentPeriodStart, s2.currentPeriodEnd,
                               if s2.plan == Free then true else IsActive(s2, now))))
  }

  /** `GET /api/subscription/my-plan` on the database. */
  method GetMyPlan(db: Db, caller: Id, now: Time) returns (reply: Reply<PlanStatus>)
    modifies db
    ensures Outcome(db.Snapshot(), reply) == MyPlan(old(db.Snapshot()), caller, now)
  {
    var subscription: SubscriptionRecord;
    if caller in db.subscriptions {
      subscription := db.subscriptions[caller];
    } else {
      subscription := DefaultSubscription(caller);
      db.subscriptions := db.subscriptions[caller := subscription];
    }
    if subscription.plan != Free && subscription.currentPeriodEnd.Some? && subscription.currentPeriodEnd.value < now {
      subscription := subscription.(status := Expired);
      db.subscriptions := db.subscriptions[caller := subscription];
    }
    var isActive := if subscription.plan == Free then true else IsActive(subscription, now);
    reply := Ok(200, PlanStatus(subscription.plan, subscription.status, subscription.amount,
                                subscription.currentPeriodStart, subscription.currentPeriodEnd, isActive));
  }

  /** What the plan reply says: a lapsed paid plan is reported 'expired' and
      inactive; any other paid plan reports exactly `isActive()`; a free plan is
      reported active although `isActive()` is false for it, which is the test the
      scan and call handlers use. */
  lemma MyPlanReport(d: Data, caller: Id, now: Time)
    ensures var s := CurrentSubscription(d, caller); var r := MyPlan(d, caller, now).reply.value;
      && r.plan == s.plan
      && (Lapsed(s, now) ==> r.status == Expired && !r.isActive)
      && (!Lapsed(s, now) ==> r.status == s.status && r.amount == s.amount && r.currentPeriodEnd == s.currentPeriodEnd)
      && (s.plan != Free && !Lapsed(s, now) ==> r.isActive == IsActive(s, now))
      && (s.plan == Free ==> r.isActive && !IsActive(s, now))
  {
  }

  /** At the period end itself the plan is neither expired nor active: the expiry
      test is `end < now` while `isActive()` needs `end > now`. */
  lemma PeriodEndBoundary(d: Data, caller: Id, now: Time)
    requires caller in d.subscriptions && d.subscriptions[caller].plan != Free
    requires d.subscriptions[caller].currentPeriodEnd == Some(now)
    ensures var r := MyPlan(d, caller, now).reply.value; r.status == d.subscriptions[caller].status && !r.isActive
  {
  }

  /** Asking twice changes nothing more than asking once. */
  lemma MyPlanIdempotent(d: Data, caller: Id, now: Time)
    ensures var d1 := MyPlan(d, caller, now).data; MyPlan(d1, caller, now) == MyPlan(d, caller, now).(data := d1)
  {
  }

  /** The plan route keeps the database consistent for an existing caller. */
  lemma MyPlanKeepsValid(d: Data, caller: Id, now: Time)
    requires Valid(d) && caller < |d.users|
    ensures Valid(MyPlan(d, caller, now).data)
  {
    var d1 := MyPlan(d, caller, now).data;
    forall i | 0 <= i < |d1.vehicles| ensures VehicleFits(d1, d1.vehicles[i]) {
      assert VehicleFits(d, d.vehicles[i]);
    }
  }

  /** What `orders.create` is asked for: the plan's price and currency, with the
      plan in the notes. */
  datatype OrderRequest = OrderRequest(amount: nat, currency: string, plan: Plan)

  /** The order the payment provider returns. */
  datatype ProviderOrder = ProviderOrder(id: string, amount: nat, currency: string)

  /** The body of a successful create-order reply. */
  datatype OrderReply = OrderReply(orderId: string, amount: nat, currency: string, key: string)

  /** `POST /api/subscription/create-order`: the request it sends to the provider
      (if any) and its reply; `created` is what the provider answers (None: the
      call throws), `keyId` the configured public key. */
  function CreateOrder(f: Features, plan: string, created: Option<ProviderOrder>, keyId: string): (r: (Option<OrderRequest>, Reply<OrderReply>))
    ensures r.0.Some? <==> f.razorpay && PaidPlanNamed(plan).Some?
    ensures r.0.Some? ==> r.0.value.plan == PaidPlanNamed(plan).value && r.0.value.amount == OfferOf(r.0.value.plan).amount
    ensures r.1.Ok? <==> r.0.Some? && created.Some?
    ensures !f.razorpay ==> r.1 == Fail(503, PAYMENTS_OFF)
  {
    if !f.razorpay then (None, Fail(503, PAYMENTS_OFF))
    else match PaidPlanNamed(plan)
      case None => (None, Fail(400, INVALID_PLAN_CHOICE))
      case Some(p) =>
        var request := OrderRequest(OfferOf(p).amount, OfferOf(p).currency, p);
        match created
        case None => (Some(request), Fail(500, ORDER_FAILED))
        case Some(order) => (Some(request), Ok(200, OrderReply(order.id, order.amount, order.currency, keyId)))
  }

  /** The verify-payment body; a missing field is the empty string. */
  datatype PaymentProof = PaymentProof(orderId: string, paymentId: string, signature: string, plan: string)

  /** The body of a successful verify-payment reply. */
  datatype PaymentReply = PaymentReply(plan: Plan, status: SubscriptionStatus, currentPeriodStart: Time, currentPeriodEnd: Time)

  /** The subscription the upsert leaves: every field but the user is overwritten. */
  function PaidSubscription(caller: Id, p: Plan, proof: PaymentProof, now: Time): (s: SubscriptionRecord)
    ensures s.user == caller && s.plan == p && s.status == Active
    ensures s.currentPeriodStart == Some(now) && s.currentPeriodEnd == Some(now + PERIOD_DAYS * DAY_MS)
  {
    SubscriptionRecord(caller, p, Active, Some(proof.orderId), Some(proof.paymentId), Some(OfferOf(p).amount),
                       Some(now), Some(now + PERIOD_DAYS * DAY_MS))
  }

  /** `POST /api/subscription/verify-payment`, as written: `hmac` is the hex
      HMAC-SHA256 under the provider secret; it signs `orderId|paymentId` only. */
  function VerifyPayment(d: Data, f: Features, caller: Id, proof: PaymentProof, hmac: string -> string, now: Time): (o: Outcome<PaymentReply>)
    ensures !o.reply.Ok? ==> o.data == d
    ensures !f.razorpay ==> o.reply == Fail(503, PAYMENTS_OFF)
  {
    if !f.razorpay then Outcome(d, Fail(503, PAYMENTS_OFF))
    else if proof.orderId == [] || proof.paymentId == [] || proof.signature == [] || proof.plan == [] then Outcome(d, Fail(400, MISSING_FIELDS))
    else match PaidPlanNamed(proof.plan)
      case None => Outcome(d, Fail(400, INVALID_PLAN))
      case Some(p) =>
        if hmac(proof.orderId + "|" + proof.paymentId) != proof.signature then Outcome(d, Fail(400, PAYMENT_REJECTED))
        else
          var s := PaidSubscription(caller, p, proof, now);
          Outcome(d.(subscriptions := d.subscriptions[caller := s]),
                  Ok(200, PaymentReply(p, Active, now, now + PERIOD_DAYS * DAY_MS)))
  }

  /** `POST /api/subscription/verify-payment` on the database. */
  method VerifyPaymentOn(db: Db, f: Features, caller: Id, proof: PaymentProof, hmac: string -> string, now: Time)
    returns (reply: Reply<PaymentReply>)
    modifies db
    ensures Outcome(db.Snapshot(), reply) == VerifyPayment(old(db.Snapshot()), f, caller, proof, hmac, now)
  {
    if !f.razorpay {
      return Fail(503, PAYMENTS_OFF);
    }
    if proof.orderId == [] || proof.paymentId == [] || proof.signature == [] || proof.plan == [] {
      return Fail(400, MISSING_FIELDS);
    }
    var p := PaidPlanNamed(proof.plan);
    if p.None? {
      return Fail(400, INVALID_PLAN);
    }
    var expected := hmac(proof.orderId + "|" + proof.paymentId);
    if expected != proof.signature {
      return Fail(400, PAYMENT_REJECTED);
    }
    var periodEnd := now + PERIOD_DAYS * DAY_MS;
    db.subscriptions := db.subscriptions[caller := PaidSubscription(caller, p.value, proof, now)];
    reply := Ok(200, PaymentReply(p.value, Active, now, periodEnd));
  }

  /** A verified payment gives the caller a subscription that `isActive()` for the
      whole 30-day period and no longer, with call access exactly on premium. */
  lemma PaymentActivatesForPeriod(d: Data, f: Features, caller: Id, proof: PaymentProof, hmac: string -> string, now: Time, t: Time)
    requires VerifyPayment(d, f, caller, proof, hmac, now).reply.Ok?
    ensures var s := VerifyPayment(d, f, caller, proof, hmac, now).data.subscriptions[caller];
      && (IsActive(s, t) <==> t < now + PERIOD_DAYS * DAY_MS)
      && (HasCallAccess(s, t) <==> t < now + PERIOD_DAYS * DAY_MS && proof.plan == "premium")
      && s.amount == Some(OfferOf(s.plan).amount)
  {
  }

  /** The verify-payment route keeps the database consistent for an existing caller. */
  lemma VerifyPaymentKeepsValid(d: Data, f: Features, caller: Id, proof: PaymentProof, hmac: string -> string, now: Time)
    requires Valid(d) && caller < |d.users|
    ensures Valid(VerifyPayment(d, f, caller, proof, hmac, now).data)
  {
    var d1 := VerifyPayment(d, f, caller, proof, hmac, now).data;
    forall i | 0 <= i < |d1.vehicles| ensures VehicleFits(d1, d1.vehicles[i]) {
      assert VehicleFits(d, d.vehicles[i]);
    }
  }

  /** The flaw in verify-payment: the signature does not cover the plan, so the
      proof of a payment for an order placed (and paid) for the basic plan, sent
      with `plan: 'premium'`, activates premium and records the premium price. */
  lemma PlanNotBoundToOrder(d: Data, f: Features, caller: Id, order: OrderRequest, proof: PaymentProof, hmac: string -> string, now: Time)
    requires f.razorpay && order == CreateOrder(f, "basic", None, "").0.value
    requires proof.orderId != [] && proof.paymentId != [] && proof.plan == "premium"
    requires proof.signature == hmac(proof.orderId + "|" + proof.paymentId) && proof.signature != []
    ensures var o := VerifyPayment(d, f, caller, proof, hmac, now);
      && o.reply.Ok? && o.data.subscriptions[caller].plan == Premium
      && o.data.subscriptions[caller].amount == Some(29900) && order.amount == 14900
  {
  }

  /** Payment verification as evidently intended: the plan must be the plan of the
      paid order, as the provider reports it in the order's notes (`orderPlan`). */
  function VerifyPaymentCorrected(d: Data, f: Features, caller: Id, proof: PaymentProof, hmac: string -> string,
                                  orderPlan: Option<Plan>, now: Time): (o: Outcome<PaymentReply>)
    ensures !o.reply.Ok? ==> o.data == d
    ensures !f.razorpay ==> o.reply == Fail(503, PAYMENTS_OFF)
  {
    if f.razorpay && proof.orderId != [] && proof.paymentId != [] && proof.signature != [] && proof.plan != []
       && PaidPlanNamed(proof.plan).Some? && hmac(proof.orderId + "|" + proof.paymentId) == proof.signature
       && orderPlan != PaidPlanNamed(proof.plan)
    then Outcome(d, Fail(400, INVALID_PLAN))
    else VerifyPayment(d, f, caller, proof, hmac, now)
  }

  /** With the correction a verified payment grants exactly the plan that was
      ordered, and records the price of that plan. */
  lemma CorrectedGrantsOrderedPlan(d: Data, f: Features, caller: Id, proof: PaymentProof, hmac: string -> string,
                                   orderPlan: Option<Plan>, now: Time)
    requires VerifyPaymentCorrected(d, f, caller, proof, hmac, orderPlan, now).reply.Ok?
    ensures var s := VerifyPaymentCorrected(d, f, caller, proof, hmac, orderPlan, now).data.subscriptions[caller];
      && orderPlan == Some(s.plan) && s.amount == Some(OfferOf(s.plan).amount)
  {
  }
}
