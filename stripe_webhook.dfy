/** The billing event handler of app/api/webhook/stripe/route.ts. A verified
    event is dispatched on its type; each handled type assigns plan and
    counter fields of one user row and appends payment and usage rows. The
    payment provider's subscription lookup is replaced by its result. */
module StripeWebhook {
  import opened Base
  import opened Records
  import opened Quota

  /** The price of one subscription month, in cents (9.99). */
  const SUBSCRIPTION_PRICE_CENTS: int := 999

  /** A subscription as the provider reports it; `currentPeriodEnd` is in seconds. */
  datatype Subscription = Subscription(
    id: string,
    metadataUserId: Option<string>,
    currentPeriodEnd: int,
    status: string,
    priceIds: seq<string>,
    latestInvoice: Option<string>)

  datatype CheckoutSession = CheckoutSession(
    mode: string,
    metadataUserId: Option<string>,
    subscription: Option<string>,
    customer: Option<string>,
    paymentIntent: Option<string>)

  /** An invoice; amounts are in cents, as the provider sends them. */
  datatype Invoice = Invoice(
    id: string,
    subscription: Option<string>,
    billingReason: Option<string>,
    paymentIntent: Option<string>,
    amountPaid: int,
    amountDue: int)

  datatype Event =
    | CheckoutCompleted(session: CheckoutSession)
    | InvoicePaymentSucceeded(invoice: Invoice)
    | InvoicePaymentFailed(invoice: Invoice)
    | SubscriptionDeleted(subscription: Subscription)
    | SubscriptionUpdated(subscription: Subscription)
    | OtherEvent(eventType: string)

  datatype WebhookResponse = InvalidSignature | Received | ProcessingFailed

  function HttpStatus(r: WebhookResponse): nat
  {
    match r
    case InvalidSignature => 400
    case Received => 200
    case ProcessingFailed => 500
  }

  /** A period end in seconds, stored as a millisecond timestamp. */
  function PeriodEndMs(seconds: int): int
  {
    seconds * 1000
  }

  // ---- the user transitions ----

  /** A completed subscription checkout at time `now`. */
  function Upgrade(u: User, customer: Option<string>, subscriptionId: Option<string>, priceId: string,
                   periodEndSec: int, now: int): (r: User)
    ensures r.plan == PREMIUM && r.isPremium && r.dailyUsed == 0
    ensures r.stripeCustomerId == customer && r.stripeSubscriptionId == subscriptionId && r.stripePriceId == Some(priceId)
    ensures r.stripeCurrentPeriodEnd == Some(PeriodEndMs(periodEndSec)) && r.premiumSince == Some(now)
    ensures r.(plan := u.plan, isPremium := u.isPremium, dailyUsed := u.dailyUsed, stripeCustomerId := u.stripeCustomerId,
               stripeSubscriptionId := u.stripeSubscriptionId, stripePriceId := u.stripePriceId,
               stripeCurrentPeriodEnd := u.stripeCurrentPeriodEnd, premiumSince := u.premiumSince) == u
  {
    u.(plan := PREMIUM, isPremium := true, stripeCustomerId := customer, stripeSubscriptionId := subscriptionId,
       stripePriceId := Some(priceId), stripeCurrentPeriodEnd := Some(periodEndSec * 1000),
       premiumSince := Some(now), dailyUsed := 0)
  }

  /** A paid renewal invoice: `plan` is left as it is. */
  function Renew(u: User, periodEndSec: int): (r: User)
    ensures r.isPremium && r.dailyUsed == 0 && r.stripeCurrentPeriodEnd == Some(PeriodEndMs(periodEndSec))
    ensures r.(isPremium := u.isPremium, dailyUsed := u.dailyUsed, stripeCurrentPeriodEnd := u.stripeCurrentPeriodEnd) == u
  {
    u.(stripeCurrentPeriodEnd := Some(periodEndSec * 1000), isPremium := true, dailyUsed := 0)
  }

  /** A deleted subscription: back to the free plan with both counters cleared. */
  function Cancel(u: User): (r: User)
    ensures !r.isPremium && r.plan == FREE && r.stripeSubscriptionId.None? && r.freeUsed == 0 && r.dailyUsed == 0
    ensures r.(isPremium := u.isPremium, plan := u.plan, stripeSubscriptionId := u.stripeSubscriptionId,
               freeUsed := u.freeUsed, dailyUsed := u.dailyUsed) == u
  {
    u.(isPremium := false, plan := FREE, stripeSubscriptionId := None, freeUsed := 0, dailyUsed := 0)
  }

  /** Subscription statuses that count as premium. */
  predicate Entitled(status: string)
  {
    status == "active" || status == "trialing"
  }

  /** An updated subscription: the period end and the premium flag, never `plan`. */
  function Refresh(u: User, periodEndSec: int, status: string): (r: User)
    ensures r.isPremium <==> Entitled(status)
    ensures r.stripeCurrentPeriodEnd == Some(PeriodEndMs(periodEndSec)) && r.plan == u.plan
    ensures r.(isPremium := u.isPremium, stripeCurrentPeriodEnd := u.stripeCurrentPeriodEnd) == u
  {
    u.(stripeCurrentPeriodEnd := Some(periodEndSec * 1000), isPremium := status == "active" || status == "trialing")
  }

  // ---- the outcome of one event ----

  /** What handling an event writes, and whether it completed without throwing. */
  datatype Outcome = Outcome(ok: bool, users: map<UserId, User>, newPayments: seq<Payment>, newUsage: seq<Usage>)

  function Ignored(users: map<UserId, User>): Outcome
  {
    Outcome(true, users, [], [])
  }

  function Thrown(users: map<UserId, User>): Outcome
  {
    Outcome(false, users, [], [])
  }

  function CheckoutOutcome(users: map<UserId, User>, s: CheckoutSession, retrieved: Result<Subscription, string>, now: int): (o: Outcome)
    ensures s.mode != "subscription" || !Truthy(s.metadataUserId) ==> o == Ignored(users)
    ensures o.users != users || o.newPayments != [] ==>
      && s.mode == "subscription" && retrieved.Ok? && |retrieved.value.priceIds| > 0
      && s.metadataUserId.Some? && s.metadataUserId.value in users
      && o.newPayments == [Payment(s.metadataUserId.value, s.paymentIntent, retrieved.value.latestInvoice,
                                   SUBSCRIPTION_PRICE_CENTS, "succeeded", "subscription_create", now)]
    ensures s.mode == "subscription" && Truthy(s.metadataUserId) && retrieved.Err? ==> o == Thrown(users)
    ensures s.mode == "subscription" && Truthy(s.metadataUserId) && retrieved.Ok? &&
            (|retrieved.value.priceIds| == 0 || s.metadataUserId.value !in users) ==>
      o == Thrown(users)
    ensures s.mode == "subscription" && Truthy(s.metadataUserId) && retrieved.Ok? &&
            |retrieved.value.priceIds| > 0 && s.metadataUserId.value in users ==>
      var uid := s.metadataUserId.value;
      var sub := retrieved.value;
      && o.ok
      && o.users == users[uid := Upgrade(users[uid], s.customer, s.subscription, sub.priceIds[0], sub.currentPeriodEnd, now)]
      && o.newPayments == [Payment(uid, s.paymentIntent, sub.latestInvoice, SUBSCRIPTION_PRICE_CENTS, "succeeded", "subscription_create", now)]
      && o.newUsage == [Usage(uid, "subscription_started", SubscriptionStarted(s.subscription, sub.priceIds[0]), now)]
  {
    if s.mode != "subscription" || !Truthy(s.metadataUserId) then Ignored(users)
    else
      var uid := s.metadataUserId.value;
      match retrieved
      case Err(_) => Thrown(users)
      case Ok(sub) =>
        if |sub.priceIds| == 0 || uid !in users then Thrown(users)
        else
          var priceId := sub.priceIds[0];
          Outcome(true,
                  users[uid := Upgrade(users[uid], s.customer, s.subscription, priceId, sub.currentPeriodEnd, now)],
                  [Payment(uid, s.paymentIntent, sub.latestInvoice, SUBSCRIPTION_PRICE_CENTS, "succeeded", "subscription_create", now)],
                  [Usage(uid, "subscription_started", SubscriptionStarted(s.subscription, priceId), now)])
  }

  /** Renewal invoices only: an invoice of a subscription whose billing reason is not `manual`. */
  predicate RenewalInvoice(inv: Invoice)
  {
    Truthy(inv.subscription) && inv.billingReason != Some("manual")
  }

  function InvoicePaidOutcome(users: map<UserId, User>, inv: Invoice, retrieved: Result<Subscription, string>, now: int): (o: Outcome)
    ensures !RenewalInvoice(inv) ==> o == Ignored(users)
    ensures o.newUsage == []
    ensures o.users != users ==>
      && retrieved.Ok? && retrieved.value.metadataUserId.Some?
      && retrieved.value.metadataUserId.value in users
      && o.users == users[retrieved.value.metadataUserId.value :=
                          Renew(users[retrieved.value.metadataUserId.value], retrieved.value.currentPeriodEnd)]
    ensures RenewalInvoice(inv) && retrieved.Err? ==> o == Thrown(users)
    ensures RenewalInvoice(inv) && retrieved.Ok? && !Truthy(retrieved.value.metadataUserId) ==> o == Ignored(users)
    ensures RenewalInvoice(inv) && retrieved.Ok? && Truthy(retrieved.value.metadataUserId) &&
            retrieved.value.metadataUserId.value !in users ==>
      o == Thrown(users)
    ensures RenewalInvoice(inv) && retrieved.Ok? && Truthy(retrieved.value.metadataUserId) &&
            retrieved.value.metadataUserId.value in users ==>
      var uid := retrieved.value.metadataUserId.value;
      && o.ok
      && o.users == users[uid := Renew(users[uid], retrieved.value.currentPeriodEnd)]
      && o.newPayments == [Payment(uid, inv.paymentIntent, Some(inv.id), inv.amountPaid, "succeeded",
                                   OrElse(inv.billingReason, "subscription_cycle"), now)]
  {
    if !RenewalInvoice(inv) then Ignored(users)
    else match retrieved
      case Err(_) => Thrown(users)
      case Ok(sub) =>
        if !Truthy(sub.metadataUserId) then Ignored(users)
        else
          var uid := sub.metadataUserId.value;
          if uid !in users then Thrown(users)
          else
            Outcome(true, users[uid := Renew(users[uid], sub.currentPeriodEnd)],
                    [Payment(uid, inv.paymentIntent, Some(inv.id), inv.amountPaid, "succeeded",
                             OrElse(inv.billingReason, "subscription_cycle"), now)],
                    [])
  }

  function InvoiceFailedOutcome(users: map<UserId, User>, inv: Invoice, retrieved: Result<Subscription, string>, now: int): (o: Outcome)
    ensures o.users == users && o.newPayments == []
    ensures !Truthy(inv.subscription) ==> o == Ignored(users)
    ensures Truthy(inv.subscription) && retrieved.Err? ==> o == Thrown(users)
    ensures Truthy(inv.subscription) && retrieved.Ok? && !Truthy(retrieved.value.metadataUserId) ==> o == Ignored(users)
    ensures Truthy(inv.subscription) && retrieved.Ok? && Truthy(retrieved.value.metadataUserId) ==>
      o.ok && o.newUsage == [Usage(retrieved.value.metadataUserId.value, "payment_failed", PaymentFailed(inv.id, inv.amountDue), now)]
  {
    if !Truthy(inv.subscription) then Ignored(users)
    else match retrieved
      case Err(_) => Thrown(users)
      case Ok(sub) =>
        if !Truthy(sub.metadataUserId) then Ignored(users)
        else Outcome(true, users, [], [Usage(sub.metadataUserId.value, "payment_failed", PaymentFailed(inv.id, inv.amountDue), now)])
  }

  function DeletedOutcome(users: map<UserId, User>, sub: Subscription, now: int): (o: Outcome)
    ensures o.newPayments == []
    ensures o.users != users ==>
      && o.ok && sub.metadataUserId.Some? && sub.metadataUserId.value in users
      && o.users == users[sub.metadataUserId.value := Cancel(users[sub.metadataUserId.value])]
    ensures !Truthy(sub.metadataUserId) ==> o == Ignored(users)
    ensures Truthy(sub.metadataUserId) && sub.metadataUserId.value !in users ==> o == Thrown(users)
    ensures Truthy(sub.metadataUserId) && sub.metadataUserId.value in users ==>
      var uid := sub.metadataUserId.value;
      && o.ok && o.users == users[uid := Cancel(users[uid])]
      && o.newUsage == [Usage(uid, "subscription_cancelled", SubscriptionCancelled(sub.id, now), now)]
  {
    if !Truthy(sub.metadataUserId) then Ignored(users)
    else
      var uid := sub.metadataUserId.value;
      if uid !in users then Thrown(users)
      else Outcome(true, users[uid := Cancel(users[uid])], [],
                   [Usage(uid, "subscription_cancelled", SubscriptionCancelled(sub.id, now), now)])
  }

  function UpdatedOutcome(users: map<UserId, User>, sub: Subscription): (o: Outcome)
    ensures o.newPayments == [] && o.newUsage == []
    ensures o.users != users ==>
      && sub.metadataUserId.Some? && sub.metadataUserId.value in users
      && o.users == users[sub.metadataUserId.value := Refresh(users[sub.metadataUserId.value], sub.currentPeriodEnd, sub.status)]
    ensures !Truthy(sub.metadataUserId) ==> o == Ignored(users)
    ensures Truthy(sub.metadataUserId) && sub.metadataUserId.value !in users ==> o == Thrown(users)
    ensures Truthy(sub.metadataUserId) && sub.metadataUserId.value in users ==>
      var uid := sub.metadataUserId.value;
      o.ok && o.users == users[uid := Refresh(users[uid], sub.currentPeriodEnd, sub.status)]
  {
    if !Truthy(sub.metadataUserId) then Ignored(users)
    else
      var uid := sub.metadataUserId.value;
      if uid !in users then Thrown(users)
      else Outcome(true, users[uid := Refresh(users[uid], sub.currentPeriodEnd, sub.status)], [], [])
  }

  /** The switch on the event type; `retrieved` is what looking up the event's subscription returns. */
  function Dispatch(users: map<UserId, User>, ev: Event, retrieved: Result<Subscription, string>, now: int): (o: Outcome)
    ensures !o.ok ==> o.users == users && o.newPayments == [] && o.newUsage == []
    ensures ev.OtherEvent? ==> o == Ignored(users)
  {
    match ev
    case CheckoutCompleted(s) => CheckoutOutcome(users, s, retrieved, now)
    case InvoicePaymentSucceeded(inv) => InvoicePaidOutcome(users, inv, retrieved, now)
    case InvoicePaymentFailed(inv) => InvoiceFailedOutcome(users, inv, retrieved, now)
    case SubscriptionDeleted(sub) => DeletedOutcome(users, sub, now)
    case SubscriptionUpdated(sub) => UpdatedOutcome(users, sub)
    case OtherEvent(_) => Ignored(users)
  }

  // ---- the handler ----

  method HandleCheckout(db: Database, s: CheckoutSession, retrieved: Result<Subscription, string>, now: int)
    returns (ok: bool)
    requires db.Valid()
    modifies db`users, db`payments, db`usage
    ensures db.Valid()
    ensures var o := CheckoutOutcome(old(db.users), s, retrieved, now);
      ok == o.ok && db.users == o.users && db.payments == old(db.payments) + o.newPayments && db.usage == old(db.usage) + o.newUsage
  {
    if s.mode != "subscription" {
      return true;
    }
    if !Truthy(s.metadataUserId) {
      return true;
    }
    var userId := s.metadataUserId.value;
    if retrieved.Err? {
      return false;
    }
    var subscription := retrieved.value;
    if |subscription.priceIds| == 0 || userId !in db.users {
      return false;
    }
    var priceId := subscription.priceIds[0];
    db.UpdateUser(Upgrade(db.users[userId], s.customer, s.subscription, priceId, subscription.currentPeriodEnd, now));
    db.RecordPayment(Payment(userId, s.paymentIntent, subscription.latestInvoice, 999, "succeeded", "subscription_create", now));
    db.RecordUsage(Usage(userId, "subscription_started", SubscriptionStarted(s.subscription, priceId), now));
    ok := true;
  }

  method HandleInvoicePaid(db: Database, inv: Invoice, retrieved: Result<Subscription, string>, now: int)
    returns (ok: bool)
    requires db.Valid()
    modifies db`users, db`payments
    ensures db.Valid()
    ensures var o := InvoicePaidOutcome(old(db.users), inv, retrieved, now);
      ok == o.ok && db.users == o.users && db.payments == old(db.payments) + o.newPayments
  {
    if !(Truthy(inv.subscription) && inv.billingReason != Some("manual")) {
      return true;
    }
    if retrieved.Err? {
      return false;
    }
    var subscription := retrieved.value;
    if !Truthy(subscription.metadataUserId) {
      return true;
    }
    var userId := subscription.metadataUserId.value;
    if userId !in db.users {
      return false;
    }
    db.UpdateUser(Renew(db.users[userId], subscription.currentPeriodEnd));
    db.RecordPayment(Payment(userId, inv.paymentIntent, Some(inv.id), inv.amountPaid, "succeeded",
                             OrElse(inv.billingReason, "subscription_cycle"), now));
    ok := true;
  }

  method HandleInvoiceFailed(db: Database, inv: Invoice, retrieved: Result<Subscription, string>, now: int)
    returns (ok: bool)
    modifies db`usage
    ensures var o := InvoiceFailedOutcome(old(db.users), inv, retrieved, now);
      ok == o.ok && db.usage == old(db.usage) + o.newUsage
  {
    if !Truthy(inv.subscription) {
      return true;
    }
    if retrieved.Err? {
      return false;
    }
    var userId := retrieved.value.metadataUserId;
    if Truthy(userId) {
      db.RecordUsage(Usage(userId.value, "payment_failed", PaymentFailed(inv.id, inv.amountDue), now));
    }
    ok := true;
  }

  method HandleDeleted(db: Database, sub: Subscription, now: int) returns (ok: bool)
    requires db.Valid()
    modifies db`users, db`usage
    ensures db.Valid()
    ensures var o := DeletedOutcome(old(db.users), sub, now);
      ok == o.ok && db.users == o.users && db.usage == old(db.usage) + o.newUsage
  {
    if !Truthy(sub.metadataUserId) {
      return true;
    }
    var userId := sub.metadataUserId.value;
    if userId !in db.users {
      return false;
    }
    db.UpdateUser(Cancel(db.users[userId]));
    db.RecordUsage(Usage(userId, "subscription_cancelled", SubscriptionCancelled(sub.id, now), now));
    ok := true;
  }

  method HandleUpdated(db: Database, sub: Subscription) returns (ok: bool)
    requires db.Valid()
    modifies db`users
    ensures db.Valid()
    ensures var o := UpdatedOutcome(old(db.users), sub);
      ok == o.ok && db.users == o.users
  {
    if !Truthy(sub.metadataUserId) {
      return true;
    }
    var userId := sub.metadataUserId.value;
    if userId !in db.users {
      return false;
    }
    db.UpdateUser(Refresh(db.users[userId], sub.currentPeriodEnd, sub.status));
    ok := true;
  }

  /** `POST /api/webhook/stripe`: `signatureValid` is whether the signature check accepts the body. */
  method HandleWebhook(db: Database, signatureValid: bool, ev: Event, retrieved: Result<Subscription, string>, now: int)
    returns (resp: WebhookResponse)
    requires db.Valid()
    modifies db`users, db`payments, db`usage
    ensures db.Valid()
    ensures !signatureValid ==>
      resp == InvalidSignature && db.users == old(db.users) && db.payments == old(db.payments) && db.usage == old(db.usage)
    ensures signatureValid ==>
      var o := Dispatch(old(db.users), ev, retrieved, now);
      && resp == (if o.ok then Received else ProcessingFailed)
      && db.users == o.users && db.payments == old(db.payments) + o.newPayments && db.usage == old(db.usage) + o.newUsage
  {
    if !signatureValid {
      return InvalidSignature;
    }
    var ok := true;
    match ev {
      case CheckoutCompleted(s) =>
        ok := HandleCheckout(db, s, retrieved, now);
      case InvoicePaymentSucceeded(inv) =>
        ok := HandleInvoicePaid(db, inv, retrieved, now);
      case InvoicePaymentFailed(inv) =>
        ok := HandleInvoiceFailed(db, inv, retrieved, now);
      case SubscriptionDeleted(sub) =>
        ok := HandleDeleted(db, sub, now);
      case SubscriptionUpdated(sub) =>
        ok := HandleUpdated(db, sub);
      case OtherEvent(_) =>
    }
    resp := if ok then Received else ProcessingFailed;
  }

  // ---- properties of the billing transitions ----

  /** Cancelling twice leaves the same user as cancelling once. */
  lemma CancelIdempotent(u: User)
    ensures Cancel(Cancel(u)) == Cancel(u)
  {
  }

  /** Redelivered renewal and update events reproduce the same user row: the writes are assignments. */
  lemma RenewalRedelivery(u: User, periodEndSec: int, status: string)
    ensures Renew(Renew(u, periodEndSec), periodEndSec) == Renew(u, periodEndSec)
    ensures Refresh(Refresh(u, periodEndSec, status), periodEndSec, status) == Refresh(u, periodEndSec, status)
  {
  }

  /** A redelivered checkout reproduces the row except `premiumSince`, which takes the later time. */
  lemma CheckoutRedelivery(u: User, customer: Option<string>, subscriptionId: Option<string>, priceId: string,
                           periodEndSec: int, t1: int, t2: int)
    ensures Upgrade(Upgrade(u, customer, subscriptionId, priceId, periodEndSec, t1), customer, subscriptionId, priceId, periodEndSec, t2)
      == Upgrade(u, customer, subscriptionId, priceId, periodEndSec, t2)
  {
  }

  /** Each delivery of a completed checkout appends its own payment row, so a
      redelivered event is billed twice in the payment table while the user row is the same. */
  lemma CheckoutPaymentPerDelivery(users: map<UserId, User>, s: CheckoutSession, sub: Subscription, now: int, later: int)
    requires s.mode == "subscription" && Truthy(s.metadataUserId) && s.metadataUserId.value in users
    requires |sub.priceIds| > 0
    ensures var o1 := CheckoutOutcome(users, s, Ok(sub), now);
      var o2 := CheckoutOutcome(o1.users, s, Ok(sub), later);
      && o1.ok && o2.ok && |o1.newPayments| == 1 && |o2.newPayments| == 1
      && o2.newPayments[0].amount == o1.newPayments[0].amount == SUBSCRIPTION_PRICE_CENTS
      && o2.users == o1.users[s.metadataUserId.value := o1.users[s.metadataUserId.value].(premiumSince := Some(later))]
  {
    var uid := s.metadataUserId.value;
    var o1 := CheckoutOutcome(users, s, Ok(sub), now);
    assert o1.users == users[uid := Upgrade(users[uid], s.customer, s.subscription, sub.priceIds[0], sub.currentPeriodEnd, now)];
  }

  /** An update with a lapsed status clears the premium flag but keeps `plan`,
      so the two disagree; the quota check then follows the flag. */
  lemma PlanAndFlagDiverge(u: User, periodEndSec: int, status: string, now: int)
    requires u.plan == PREMIUM && !Entitled(status) && !u.isBanned
    ensures Refresh(u, periodEndSec, status).plan == PREMIUM
    ensures !Refresh(u, periodEndSec, status).isPremium
    ensures CheckAnswer(Refresh(u, periodEndSec, status), now).plan == FREE
  {
  }

  /** A renewal after the lazy downgrade restores the premium flag but not the plan. */
  lemma RenewalAfterDowngrade(u: User, now: int, periodEndSec: int)
    requires !u.isBanned && u.isPremium && PeriodExpired(u, now)
    ensures var r := Renew(AfterCheck(u, now), periodEndSec);
      r.isPremium && r.plan == FREE
  {
  }

  /** A cancelled subscription gives a user who is not banned both free try-ons again. */
  lemma CancelRestoresFreeQuota(u: User, now: int)
    requires !u.isBanned
    ensures CheckAnswer(Cancel(u), now) == QuotaCheck(true, Count(FREE_LIMIT), FREE, None, None)
  {
  }

  /** A completed checkout with a period end still ahead lets a user who is not banned start a try-on. */
  lemma UpgradeGrantsAccess(u: User, customer: Option<string>, subscriptionId: Option<string>, priceId: string,
                            periodEndSec: int, now: int, later: int)
    requires !u.isBanned && later <= PeriodEndMs(periodEndSec)
    ensures CheckAnswer(Upgrade(u, customer, subscriptionId, priceId, periodEndSec, now), later).canUse
    ensures CheckAnswer(Upgrade(u, customer, subscriptionId, priceId, periodEndSec, now), later).remaining == Unlimited
  {
  }

  /** A failed payment never touches a user row or the payment table. */
  lemma PaymentFailureWritesOnlyUsage(users: map<UserId, User>, inv: Invoice, retrieved: Result<Subscription, string>, now: int)
    ensures Dispatch(users, InvoicePaymentFailed(inv), retrieved, now).users == users
    ensures Dispatch(users, InvoicePaymentFailed(inv), retrieved, now).newPayments == []
  {
  }
}
