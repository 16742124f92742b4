/** The Express server of server/index.js: the identity-provider webhook that
    links each new user to a new billing customer, the billing-provider
    webhook that turns checkout and subscription events into the user's
    `plan`, and the checkout and billing-portal endpoints. Every handler is a
    method over the two provider stores; `faults` holds the positions (0 for
    the first provider call of the request, 1 for the second, ...) of the
    calls that reject. */
module Server {
  import opened Common
  import opened Providers

  // ---------------------------------------------------------------- events

  /** The outcome of checking a webhook's signature over its raw body: the
      typed event, or the verifier's error message. */
  datatype Delivery<E> = Verified(event: E) | Rejected(reason: string)

  /** `data` of a Clerk user event: the user id and its e-mail addresses. */
  datatype ClerkUserData = ClerkUserData(id: UserId, emailAddresses: seq<string>)

  /** A Clerk event: `user.created`, or any other type. */
  datatype ClerkEvent = UserCreated(data: ClerkUserData) | OtherClerkEvent(eventType: string)

  /** `OtherClerkEvent` never carries the type the handler acts on. */
  predicate WellTaggedClerk(e: ClerkEvent)
  {
    e.OtherClerkEvent? ==> e.eventType != "user.created"
  }

  /** The fields of a Checkout Session the handler reads. */
  datatype CheckoutSession = CheckoutSession(
    id: string,
    clientReferenceId: Option<UserId>,
    subscriptionDataClerkId: Option<UserId>,
    metadata: map<string, string>,
    customer: Option<CustomerId>)

  /** A Stripe event, tagged by its `type`; `OtherStripeEvent` stands for
      every type but the three handled ones. */
  datatype StripeEvent =
    | CheckoutSessionCompleted(session: CheckoutSession)
    | SubscriptionUpdated(subscription: Subscription)
    | SubscriptionDeleted(subscription: Subscription)
    | OtherStripeEvent(eventType: string)

  /** `OtherStripeEvent` never carries one of the three handled types. */
  predicate WellTaggedStripe(e: StripeEvent)
  {
    e.OtherStripeEvent? ==>
      && e.eventType != "checkout.session.completed"
      && e.eventType != "customer.subscription.updated"
      && e.eventType != "customer.subscription.deleted"
  }

  // ------------------------------------------------------------- responses

  datatype Body =
    | WebhookOutcome(success: bool, message: string)  // Clerk endpoint: {success, message}
    | Received                                         // Stripe endpoint: {received: true}
    | WebhookErrorText(text: string)                   // Stripe endpoint: plain-text 400
    | SessionUrl(url: string)                          // {url}
    | ErrorMessage(message: string)                    // {error} with a fixed message
    | ProviderError                                    // {error: e.message}, text chosen by the SDK

  /** An HTTP answer, or none at all: `NoReply` is a handler whose promise
      rejects past every `catch`, which Express 4 never answers (Express 5
      would answer 500). */
  datatype Response = Reply(status: int, body: Body) | NoReply

  // ------------------------------------------------- entitlement resolution

  datatype Plan = Pro | Free

  function PlanName(plan: Plan): string
  {
    match plan
    case Pro => "pro"
    case Free => "free"
  }

  /** The plan a subscription status maps to. The second literal is spelled
      'trialling', which is not a status Stripe sends: Stripe's trial status
      is 'trialing', and it maps to `Free` here. */
  function PlanForStatus(status: string): (plan: Plan)
    ensures plan == Pro <==> status == "active" || status == "trialling"
  {
    if status == "active" || status == "trialling" then Pro else Free
  }

  /** Exactly 'active' and the literal 'trialling' grant pro; every other
      status, known or unknown, resolves to free. */
  lemma PlanForStatusFailsSafe(status: string)
    ensures PlanForStatus(status) == Pro <==> status == "active" || status == "trialling"
    ensures status != "active" && status != "trialling" ==> PlanForStatus(status) == Free
  {
  }

  /** The resolver over Stripe's status enumeration: only 'active' grants pro;
      Stripe's 'trialing' does not. */
  lemma StripeStatusesResolve()
    ensures PlanForStatus("active") == Pro
    ensures PlanForStatus("trialing") == Free
    ensures forall s :: s in ["past_due", "canceled", "unpaid", "incomplete", "incomplete_expired", "paused"]
              ==> PlanForStatus(s) == Free
  {
  }

  /** The metadata patch a subscription event writes: the `plan` key only. */
  function SubscriptionPatch(status: string): (patch: map<string, Json>)
    ensures patch.Keys == {"plan"}
    ensures patch["plan"] == JStr("pro") || patch["plan"] == JStr("free")
    ensures patch["plan"] == JStr("pro") <==> status == "active" || status == "trialling"
  {
    map["plan" := JStr(PlanName(PlanForStatus(status)))]
  }

  /** `a || b || c` followed by a truthiness test: the first truthy
      candidate, or `None` when none is. */
  function FirstTruthy(candidates: seq<Option<string>>): (r: Option<string>)
    ensures r.Some? <==> exists i :: 0 <= i < |candidates| && Truthy(candidates[i])
    ensures r.Some? ==> Truthy(r)
    ensures r.Some? ==> exists i :: 0 <= i < |candidates| && candidates[i] == r
                                    && forall j :: 0 <= j < i ==> !Truthy(candidates[j])
  {
    if |candidates| == 0 then None
    else if Truthy(candidates[0]) then candidates[0]
    else
      var r := FirstTruthy(candidates[1..]);
      assert forall i :: 0 < i < |candidates| ==> candidates[i] == candidates[1..][i - 1];
      r
  }

  /** The user a completed checkout belongs to: `client_reference_id`, then
      `subscription_data.metadata.clerkId`, then `metadata.clerkId`. */
  function CheckoutUserId(s: CheckoutSession): (r: Option<UserId>)
    ensures Truthy(s.clientReferenceId) ==> r == s.clientReferenceId
    ensures !Truthy(s.clientReferenceId) && Truthy(s.subscriptionDataClerkId) ==> r == s.subscriptionDataClerkId
    ensures !Truthy(s.clientReferenceId) && !Truthy(s.subscriptionDataClerkId) ==>
              r == (if Truthy(Lookup(s.metadata, "clerkId")) then Lookup(s.metadata, "clerkId") else None)
  {
    var candidates := [s.clientReferenceId, s.subscriptionDataClerkId, Lookup(s.metadata, "clerkId")];
    var rest := candidates[1..];
    assert rest == [s.subscriptionDataClerkId, Lookup(s.metadata, "clerkId")];
    assert rest[1..] == [Lookup(s.metadata, "clerkId")];
    assert !Truthy(candidates[0]) ==> FirstTruthy(candidates) == FirstTruthy(rest);
    assert !Truthy(rest[0]) ==> FirstTruthy(rest) == FirstTruthy(rest[1..]);
    FirstTruthy(candidates)
  }

  /** The value written to `stripeCustomerId`: the session's customer, or
      JSON null when the session has none. */
  function CustomerJson(customer: Option<CustomerId>): Json
  {
    if customer.Some? then JStr(customer.value) else JNull
  }

  /** The patch a completed checkout writes onto its user. */
  function GrantPatch(customer: Option<CustomerId>): (patch: map<string, Json>)
    ensures patch.Keys == {"plan", "stripeCustomerId"}
    ensures patch["plan"] == JStr("pro") && patch["stripeCustomerId"] == CustomerJson(customer)
  {
    map["plan" := JStr("pro"), "stripeCustomerId" := CustomerJson(customer)]
  }

  // ------------------------------------------------------ identity webhook

  /** POST /api/webhooks/clerk. On `user.created` it creates a billing
      customer tagged with the user id and then links the customer's id onto
      the user; it never checks for an existing link, so every delivery makes
      a new customer. `newCustomerId` is the id the billing provider
      allocates. */
  method HandleClerkWebhook(p: Providers, delivery: Delivery<ClerkEvent>, newCustomerId: CustomerId, faults: set<nat>)
    returns (resp: Response)
    requires delivery.Verified? ==> WellTaggedClerk(delivery.event)
    requires newCustomerId !in p.customers
    modifies p
    ensures delivery.Rejected? ==>
      resp == Reply(400, WebhookOutcome(false, delivery.reason)) && unchanged(p)
    ensures delivery.Verified? && delivery.event.OtherClerkEvent? ==>
      resp == Reply(200, WebhookOutcome(true, "Webhook received")) && unchanged(p)
    ensures delivery.Verified? && delivery.event.UserCreated? && delivery.event.data.emailAddresses == [] ==>
      resp == NoReply && unchanged(p)
    ensures delivery.Verified? && delivery.event.UserCreated? && delivery.event.data.emailAddresses != [] ==>
      var d := delivery.event.data;
      var created := NewCustomer(d.emailAddresses[0], map["clerkId" := d.id]);
      var link := map["stripeCustomerId" := JStr(newCustomerId)];
      if 0 in faults then
        && p.log == old(p.log) + [created]
        && p.customers == old(p.customers) && p.users == old(p.users)
        && resp == Reply(500, WebhookOutcome(false, "Internal Server Error"))
      else
        var linked := 1 !in faults && d.id in old(p.users);
        && p.log == old(p.log) + [created, PatchUser(d.id, link)]
        && p.customers == old(p.customers)[newCustomerId := Customer(d.emailAddresses[0], map["clerkId" := d.id], [])]
        && p.users == (if linked then WithUserPatch(old(p.users), d.id, link) else old(p.users))
        && resp == if linked then Reply(200, WebhookOutcome(true, "Webhook received"))
                   else Reply(500, WebhookOutcome(false, "Internal Server Error"))
  {
    if delivery.Rejected? {
      return Reply(400, WebhookOutcome(false, delivery.reason));
    }
    match delivery.event
    case OtherClerkEvent(_) =>
      resp := Reply(200, WebhookOutcome(true, "Webhook received"));
    case UserCreated(d) =>
      if d.emailAddresses == [] {
        // `email_addresses[0].email_address` throws before the try block
        return NoReply;
      }
      var email := d.emailAddresses[0];
      var customer := p.CreateCustomer(email, map["clerkId" := d.id], newCustomerId, 0 in faults);
      if customer.Err? {
        return Reply(500, WebhookOutcome(false, "Internal Server Error"));
      }
      var linked := p.UpdateUserMetadata(d.id, map["stripeCustomerId" := JStr(customer.value)], 1 in faults);
      if !linked {
        return Reply(500, WebhookOutcome(false, "Internal Server Error"));
      }
      resp := Reply(200, WebhookOutcome(true, "Webhook received"));
  }

  /** A duplicate `user.created` delivery creates a second tagged customer and
      relinks the user to it: the first customer stays, still tagged. */
  method ReplayUserCreated(p: Providers, d: ClerkUserData, first: CustomerId, second: CustomerId)
    returns (r1: Response, r2: Response)
    requires d.emailAddresses != [] && d.id in p.users
    requires first !in p.customers && second !in p.customers && first != second
    modifies p
    ensures r1 == r2 == Reply(200, WebhookOutcome(true, "Webhook received"))
    ensures first in p.customers && second in p.customers
    ensures p.customers[first].metadata == p.customers[second].metadata == map["clerkId" := d.id]
    ensures d.id in p.users && Lookup(p.users[d.id].publicMetadata, "stripeCustomerId") == Some(JStr(second))
  {
    r1 := HandleClerkWebhook(p, Verified(UserCreated(d)), first, {});
    r2 := HandleClerkWebhook(p, Verified(UserCreated(d)), second, {});
  }

  // ------------------------------------------------------- billing webhook

  /** POST /api/webhooks/stripe. A checkout completion promotes its user to
      pro and backfills the customer's `clerkId`; a subscription update or
      deletion writes the `plan` the status maps to, finding the user through
      the subscription's metadata or else the customer's. Every verified
      event is acknowledged with `{received: true}`, except when the direct
      plan update of a subscription event rejects: that rejection is not
      caught, and no answer is sent. */
  method HandleStripeWebhook(p: Providers, delivery: Delivery<StripeEvent>, faults: set<nat>) returns (resp: Response)
    requires delivery.Verified? ==> WellTaggedStripe(delivery.event)
    modifies p
    ensures delivery.Rejected? ==>
      resp == Reply(400, WebhookErrorText("Webhook Error: " + delivery.reason)) && unchanged(p)
    ensures delivery.Verified? && delivery.event.OtherStripeEvent? ==>
      resp == Reply(200, Received) && unchanged(p)
    ensures delivery.Verified? && delivery.event.CheckoutSessionCompleted? ==>
      var s := delivery.event.session;
      var uid := CheckoutUserId(s);
      && resp == Reply(200, Received)
      && (uid.None? ==> unchanged(p))
      && (uid.Some? ==>
            var backfill := Truthy(s.customer);
            var tag := map["clerkId" := uid.value];
            var k := if backfill then 1 else 0;
            && p.log == old(p.log) + (if backfill then [PatchCustomer(s.customer.value, tag)] else [])
                                    + [PatchUser(uid.value, GrantPatch(s.customer))]
            && p.customers == (if backfill && 0 !in faults then WithCustomerPatch(old(p.customers), s.customer.value, tag)
                               else old(p.customers))
            && p.users == (if k !in faults then WithUserPatch(old(p.users), uid.value, GrantPatch(s.customer))
                           else old(p.users)))
    ensures delivery.Verified? && (delivery.event.SubscriptionUpdated? || delivery.event.SubscriptionDeleted?) ==>
      && p.customers == old(p.customers)
      && StatusApplied(old(p.users), old(p.customers), old(p.log), delivery.event.subscription, faults, p.users, p.log, resp)
  {
    if delivery.Rejected? {
      return Reply(400, WebhookErrorText("Webhook Error: " + delivery.reason));
    }
    match delivery.event
    case CheckoutSessionCompleted(s) =>
      var uid := CheckoutUserId(s);
      if uid.Some? {
        var calls := 0;
        if Truthy(s.customer) {
          // best effort: a failed backfill is only logged
          var _ := p.UpdateCustomerMetadata(s.customer.value, map["clerkId" := uid.value], 0 in faults);
          calls := 1;
        }
        var _ := p.UpdateUserMetadata(uid.value, GrantPatch(s.customer), calls in faults);
      }
      resp := Reply(200, Received);
    case SubscriptionUpdated(sub) =>
      resp := ApplySubscriptionStatus(p, sub, faults);
    case SubscriptionDeleted(sub) =>
      resp := ApplySubscriptionStatus(p, sub, faults);
    case OtherStripeEvent(_) =>
      resp := Reply(200, Received);
  }

  /** What a subscription event does to the user store and the call log,
      and how it is answered, given the stores before it: the plan patch goes
      to the subscription's own `clerkId` when that is set, and an uncaught
      rejection of that write leaves the request unanswered; otherwise the
      customer is read and the patch goes to its `clerkId`, with any failure
      swallowed. */
  predicate StatusApplied(users: map<UserId, User>, customers: map<CustomerId, Customer>, log: seq<Call>,
                          sub: Subscription, faults: set<nat>,
                          users': map<UserId, User>, log': seq<Call>, resp: Response)
  {
    var patch := SubscriptionPatch(sub.status);
    var direct := Lookup(sub.metadata, "clerkId");
    if Truthy(direct) then
      var ok := 0 !in faults && direct.value in users;
      && log' == log + [PatchUser(direct.value, patch)]
      && users' == (if ok then WithUserPatch(users, direct.value, patch) else users)
      && resp == (if ok then Reply(200, Received) else NoReply)
    else
      var owner := if 0 !in faults && sub.customer in customers
                   then Lookup(customers[sub.customer].metadata, "clerkId") else None;
      && resp == Reply(200, Received)
      && log' == log + [ReadCustomer(sub.customer)] + (if Truthy(owner) then [PatchUser(owner.value, patch)] else [])
      && users' == (if Truthy(owner) && 1 !in faults then WithUserPatch(users, owner.value, patch) else users)
  }

  /** The shared body of `customer.subscription.updated` and
      `customer.subscription.deleted`. */
  method ApplySubscriptionStatus(p: Providers, sub: Subscription, faults: set<nat>) returns (resp: Response)
    modifies p
    ensures p.customers == old(p.customers)
    ensures StatusApplied(old(p.users), old(p.customers), old(p.log), sub, faults, p.users, p.log, resp)
  {
    var patch := SubscriptionPatch(sub.status);
    var direct := Lookup(sub.metadata, "clerkId");
    if Truthy(direct) {
      var ok := p.UpdateUserMetadata(direct.value, patch, 0 in faults);
      // not inside a try block: a rejection escapes the handler
      resp := if ok then Reply(200, Received) else NoReply;
    } else {
      var customer := p.RetrieveCustomer(sub.customer, 0 in faults);
      if customer.Ok? {
        var owner := Lookup(customer.value.metadata, "clerkId");
        if Truthy(owner) {
          var _ := p.UpdateUserMetadata(owner.value, patch, 1 in faults);
        }
      }
      resp := Reply(200, Received);
    }
  }

  /** Processing the same subscription event a second time leaves the user
      store as the first processing left it. */
  method ReplaySubscriptionEvent(p: Providers, event: StripeEvent)
    returns (r1: Response, r2: Response)
    requires event.SubscriptionUpdated? || event.SubscriptionDeleted?
    modifies p
    ensures r1 == r2
    ensures p.users == SubscriptionEffect(old(p.users), old(p.customers), event.subscription)
  {
    r1 := HandleStripeWebhook(p, Verified(event), {});
    r2 := HandleStripeWebhook(p, Verified(event), {});
    SubscriptionOwnerPatchIdempotent(old(p.users), old(p.customers), event.subscription);
  }

  /** The user a subscription event writes to, when faults do not interfere. */
  function SubscriptionOwner(customers: map<CustomerId, Customer>, sub: Subscription): (owner: Option<UserId>)
    ensures Truthy(Lookup(sub.metadata, "clerkId")) ==> owner == Lookup(sub.metadata, "clerkId")
    ensures !Truthy(Lookup(sub.metadata, "clerkId")) && sub.customer in customers
              && Truthy(Lookup(customers[sub.customer].metadata, "clerkId")) ==>
              owner == Lookup(customers[sub.customer].metadata, "clerkId")
    ensures !Truthy(Lookup(sub.metadata, "clerkId"))
              && (sub.customer !in customers || !Truthy(Lookup(customers[sub.customer].metadata, "clerkId"))) ==>
              owner.None?
    ensures owner.Some? ==> owner.value != ""
  {
    var direct := Lookup(sub.metadata, "clerkId");
    if Truthy(direct) then direct
    else if sub.customer in customers && Truthy(Lookup(customers[sub.customer].metadata, "clerkId"))
    then Lookup(customers[sub.customer].metadata, "clerkId")
    else None
  }

  /** The user store after one fault-free processing of a subscription event. */
  function SubscriptionEffect(users: map<UserId, User>, customers: map<CustomerId, Customer>, sub: Subscription): map<UserId, User>
  {
    var owner := SubscriptionOwner(customers, sub);
    if owner.Some? then WithUserPatch(users, owner.value, SubscriptionPatch(sub.status)) else users
  }

  lemma SubscriptionOwnerPatchIdempotent(users: map<UserId, User>, customers: map<CustomerId, Customer>, sub: Subscription)
    ensures var owner := SubscriptionOwner(customers, sub);
            var patch := SubscriptionPatch(sub.status);
            owner.Some? ==> WithUserPatch(WithUserPatch(users, owner.value, patch), owner.value, patch)
                            == WithUserPatch(users, owner.value, patch)
  {
    var owner := SubscriptionOwner(customers, sub);
    if owner.Some? && owner.value in users {
      MergeIdempotent(users[owner.value].publicMetadata, SubscriptionPatch(sub.status));
    }
  }

  // ------------------------------------------- checkout and portal endpoints

  datatype CheckoutRequest = CheckoutRequest(clerkUserId: Option<UserId>, email: Option<string>)

  /** The environment the endpoints read: STRIPE_PRICE_ID and CLIENT_URL. */
  datatype Env = Env(priceId: Option<string>, clientUrl: Option<string>)

  function BaseUrl(env: Env): string
  {
    if Truthy(env.clientUrl) then env.clientUrl.value else "http://localhost:5173"
  }

  /** A configured price id is used as is; without one the session carries
      an inline price of 699 cents a month. */
  function LineItems(env: Env): (items: seq<LineItem>)
    ensures |items| == 1 && items[0].quantity == 1
    ensures items[0].CatalogPrice? <==> Truthy(env.priceId)
    ensures Truthy(env.priceId) ==> items[0] == CatalogPrice(env.priceId.value, 1)
    ensures !Truthy(env.priceId) ==> items[0] == InlinePrice("usd", "Fake Chat Generator Pro", 699, "month", 1)
  {
    if Truthy(env.priceId) then [CatalogPrice(env.priceId.value, 1)]
    else [InlinePrice("usd", "Fake Chat Generator Pro", 699, "month", 1)]
  }

  /** The customer id linked on a user record, when it is truthy. */
  function LinkedCustomer(user: User): (r: Option<CustomerId>)
    ensures r.Some? <==> TruthyJson(Lookup(user.publicMetadata, "stripeCustomerId"))
    ensures r.Some? ==> r.value != "" && user.publicMetadata["stripeCustomerId"] == JStr(r.value)
  {
    var v := Lookup(user.publicMetadata, "stripeCustomerId");
    if TruthyJson(v) then Some(v.value.s) else None
  }

  /** POST /api/create-checkout-session. It needs a user id; it reuses the
      user's linked customer when there is one and otherwise passes the
      e-mail, so the configuration names exactly one of the two. It writes to
      neither store. `config` is the configuration sent, if one was. */
  method CreateCheckoutSession(p: Providers, req: CheckoutRequest, env: Env, sessionUrl: string, faults: set<nat>)
    returns (resp: Response, config: Option<SessionConfig>)
    modifies p`log
    ensures !Truthy(req.clerkUserId) ==>
      resp == Reply(400, ErrorMessage("Missing clerkUserId")) && config.None? && p.log == old(p.log)
    ensures Truthy(req.clerkUserId) && (0 in faults || req.clerkUserId.value !in p.users) ==>
      resp == Reply(500, ProviderError) && config.None? && p.log == old(p.log) + [ReadUser(req.clerkUserId.value)]
    ensures Truthy(req.clerkUserId) && 0 !in faults && req.clerkUserId.value in p.users ==>
      var id := req.clerkUserId.value;
      var linked := LinkedCustomer(p.users[id]);
      && config.Some?
      && config.value.payer == (if linked.Some? then ExistingCustomer(linked.value) else CustomerEmail(req.email))
      && config.value.mode == "subscription" && config.value.paymentMethodTypes == ["card"]
      && config.value.lineItems == LineItems(env)
      && config.value.clientReferenceId == id && config.value.subscriptionClerkId == id
      && config.value.successUrl == BaseUrl(env) + "/?success=true"
      && config.value.cancelUrl == BaseUrl(env) + "/pricing?canceled=true"
      && p.log == old(p.log) + [ReadUser(id), NewCheckoutSession(config.value)]
      && resp == (if 1 in faults then Reply(500, ProviderError) else Reply(200, SessionUrl(sessionUrl)))
  {
    if !Truthy(req.clerkUserId) {
      return Reply(400, ErrorMessage("Missing clerkUserId")), None;
    }
    var id := req.clerkUserId.value;
    var user := p.GetUser(id, 0 in faults);
    if user.Err? {
      return Reply(500, ProviderError), None;
    }
    var stripeCustomerId := LinkedCustomer(user.value);
    var sessionConfig := SessionConfig(
      "subscription", ["card"], LineItems(env), id, id,
      BaseUrl(env) + "/?success=true", BaseUrl(env) + "/pricing?canceled=true", Unset);
    if stripeCustomerId.Some? {
      sessionConfig := sessionConfig.(payer := ExistingCustomer(stripeCustomerId.value));
    } else {
      sessionConfig := sessionConfig.(payer := CustomerEmail(req.email));
    }
    config := Some(sessionConfig);
    var session := p.CreateCheckoutSession(sessionConfig, sessionUrl, 1 in faults);
    resp := if session.Ok? then Reply(200, SessionUrl(session.value)) else Reply(500, ProviderError);
  }

  /** POST /api/create-portal-session. It answers 400 when the user has no
      linked customer, and writes to neither store. The request's user id is
      not checked first: the SDK refuses a missing id before any request, and
      that surfaces as a 500. */
  method CreatePortalSession(p: Providers, clerkUserId: Option<UserId>, env: Env, portalUrl: string, faults: set<nat>)
    returns (resp: Response)
    modifies p`log
    ensures !Truthy(clerkUserId) ==> resp == Reply(500, ProviderError) && p.log == old(p.log)
    ensures Truthy(clerkUserId) && (0 in faults || clerkUserId.value !in p.users) ==>
      resp == Reply(500, ProviderError) && p.log == old(p.log) + [ReadUser(clerkUserId.value)]
    ensures Truthy(clerkUserId) && 0 !in faults && clerkUserId.value in p.users ==>
      var id := clerkUserId.value;
      var linked := LinkedCustomer(p.users[id]);
      if linked.None? then
        && resp == Reply(400, ErrorMessage("No Stripe Customer ID found for this user."))
        && p.log == old(p.log) + [ReadUser(id)]
      else
        && p.log == old(p.log) + [ReadUser(id), NewPortalSession(linked.value, BaseUrl(env) + "/pricing")]
        && resp == (if 1 in faults then Reply(500, ProviderError) else Reply(200, SessionUrl(portalUrl)))
  {
    if !Truthy(clerkUserId) {
      return Reply(500, ProviderError);
    }
    var user := p.GetUser(clerkUserId.value, 0 in faults);
    if user.Err? {
      return Reply(500, ProviderError);
    }
    var stripeCustomerId := LinkedCustomer(user.value);
    if stripeCustomerId.None? {
      return Reply(400, ErrorMessage("No Stripe Customer ID found for this user."));
    }
    var portal := p.CreatePortalSession(stripeCustomerId.value, BaseUrl(env) + "/pricing", portalUrl, 1 in faults);
    resp := if portal.Ok? then Reply(200, SessionUrl(portal.value)) else Reply(500, ProviderError);
  }
}
