/** The two external providers the server talks to, as state: the identity
    provider's user records (Clerk) and the billing provider's customers
    (Stripe), plus a log of every call made to either. Each SDK call is a
    method that takes `fails`, the outcome the network and the provider
    decide, and otherwise behaves as the provider documents it. */
module Providers {
  import opened Common

  type UserId = string
  type CustomerId = string

  /** A user record; only its public metadata bag is read or written here
      (`plan`, `stripeCustomerId`, and whatever else other code put there). */
  datatype User = User(publicMetadata: map<string, Json>)

  datatype Subscription = Subscription(id: string, customer: CustomerId, status: string, metadata: map<string, string>)

  /** A billing customer: its e-mail, its metadata (`clerkId`) and the
      subscriptions the provider lists for it. */
  datatype Customer = Customer(email: string, metadata: map<string, string>, subscriptions: seq<Subscription>)

  /** The line item of a checkout session: a catalogue price, or an inline
      monthly price built from the amount in cents. */
  datatype LineItem =
    | CatalogPrice(price: string, quantity: nat)
    | InlinePrice(currency: string, productName: string, unitAmount: nat, interval: string, quantity: nat)

  /** Who pays for a checkout session. `Unset` is the session configuration
      before the server has chosen. */
  datatype Payer = Unset | ExistingCustomer(customer: CustomerId) | CustomerEmail(email: Option<string>)

  datatype SessionConfig = SessionConfig(
    mode: string,
    paymentMethodTypes: seq<string>,
    lineItems: seq<LineItem>,
    clientReferenceId: UserId,
    subscriptionClerkId: UserId,
    successUrl: string,
    cancelUrl: string,
    payer: Payer)

  /** One call to a provider, in the order it was made. */
  datatype Call =
    | ReadUser(id: UserId)
    | PatchUser(id: UserId, patch: map<string, Json>)
    | NewCustomer(email: string, metadata: map<string, string>)
    | ReadCustomer(id: CustomerId)
    | PatchCustomer(id: CustomerId, metadata: map<string, string>)
    | NewCheckoutSession(config: SessionConfig)
    | NewPortalSession(customer: CustomerId, returnUrl: string)

  /** A metadata update merges key by key: keys in the patch take the patch's
      value, every other key keeps its value. */
  function Merge<V>(meta: map<string, V>, patch: map<string, V>): (r: map<string, V>)
    ensures r.Keys == meta.Keys + patch.Keys
    ensures forall k :: k in patch ==> r[k] == patch[k]
    ensures forall k :: k in meta && k !in patch ==> r[k] == meta[k]
  {
    meta + patch
  }

  /** Applying the same metadata patch twice leaves what applying it once
      leaves: the ground of every replay-safety argument below. */
  lemma MergeIdempotent<V>(meta: map<string, V>, patch: map<string, V>)
    ensures Merge(Merge(meta, patch), patch) == Merge(meta, patch)
  {
  }

  /** The user store after a successful metadata update of `id`. */
  function WithUserPatch(users: map<UserId, User>, id: UserId, patch: map<string, Json>): (r: map<UserId, User>)
    ensures r.Keys == users.Keys
    ensures forall u :: u in users && u != id ==> r[u] == users[u]
    ensures id in users ==> r[id].publicMetadata == Merge(users[id].publicMetadata, patch)
  {
    if id in users then users[id := User(Merge(users[id].publicMetadata, patch))] else users
  }

  /** The customer store after a successful metadata update of `id`. */
  function WithCustomerPatch(customers: map<CustomerId, Customer>, id: CustomerId, patch: map<string, string>): (r: map<CustomerId, Customer>)
    ensures r.Keys == customers.Keys
    ensures forall c :: c in customers && c != id ==> r[c] == customers[c]
    ensures id in customers ==> r[id] == customers[id].(metadata := Merge(customers[id].metadata, patch))
  {
    if id in customers then customers[id := customers[id].(metadata := Merge(customers[id].metadata, patch))] else customers
  }

  class Providers {
    var users: map<UserId, User>
    var customers: map<CustomerId, Customer>
    var log: seq<Call>

    constructor (users: map<UserId, User>, customers: map<CustomerId, Customer>)
      ensures this.users == users && this.customers == customers && log == []
    {
      this.users := users;
      this.customers := customers;
      log := [];
    }

    /** `clerkClient.users.getUser(id)`: rejects for an unknown user. */
    method GetUser(id: UserId, fails: bool) returns (r: Result<User>)
      modifies this`log
      ensures log == old(log) + [ReadUser(id)]
      ensures r == if !fails && id in users then Ok(users[id]) else Err
    {
      log := log + [ReadUser(id)];
      r := if !fails && id in users then Ok(users[id]) else Err;
    }

    /** `clerkClient.users.updateUserMetadata(id, {publicMetadata: patch})`. */
    method UpdateUserMetadata(id: UserId, patch: map<string, Json>, fails: bool) returns (ok: bool)
      modifies this`users, this`log
      ensures log == old(log) + [PatchUser(id, patch)]
      ensures ok == (!fails && id in old(users))
      ensures users == if ok then WithUserPatch(old(users), id, patch) else old(users)
    {
      log := log + [PatchUser(id, patch)];
      ok := !fails && id in users;
      if ok {
        users := WithUserPatch(users, id, patch);
      }
    }

    /** `stripe.customers.create({email, metadata})`; `newId` is the id the
        provider allocates, which no existing customer has. */
    method CreateCustomer(email: string, metadata: map<string, string>, newId: CustomerId, fails: bool)
      returns (r: Result<CustomerId>)
      requires newId !in customers
      modifies this`customers, this`log
      ensures log == old(log) + [NewCustomer(email, metadata)]
      ensures r == if fails then Err else Ok(newId)
      ensures customers == if fails then old(customers) else old(customers)[newId := Customer(email, metadata, [])]
    {
      log := log + [NewCustomer(email, metadata)];
      if fails {
        r := Err;
      } else {
        customers := customers[newId := Customer(email, metadata, [])];
        r := Ok(newId);
      }
    }

    /** `stripe.customers.retrieve(id)`: rejects for an unknown customer. */
    method RetrieveCustomer(id: CustomerId, fails: bool) returns (r: Result<Customer>)
      modifies this`log
      ensures log == old(log) + [ReadCustomer(id)]
      ensures r == if !fails && id in customers then Ok(customers[id]) else Err
    {
      log := log + [ReadCustomer(id)];
      r := if !fails && id in customers then Ok(customers[id]) else Err;
    }

    /** `stripe.customers.update(id, {metadata: patch})`. */
    method UpdateCustomerMetadata(id: CustomerId, patch: map<string, string>, fails: bool) returns (ok: bool)
      modifies this`customers, this`log
      ensures log == old(log) + [PatchCustomer(id, patch)]
      ensures ok == (!fails && id in old(customers))
      ensures customers == if ok then WithCustomerPatch(old(customers), id, patch) else old(customers)
    {
      log := log + [PatchCustomer(id, patch)];
      ok := !fails && id in customers;
      if ok {
        customers := WithCustomerPatch(customers, id, patch);
      }
    }

    /** `stripe.checkout.sessions.create(config)`; `url` is the hosted page
        the provider answers with. */
    method CreateCheckoutSession(config: SessionConfig, url: string, fails: bool) returns (r: Result<string>)
      modifies this`log
      ensures log == old(log) + [NewCheckoutSession(config)]
      ensures r == if fails then Err else Ok(url)
    {
      log := log + [NewCheckoutSession(config)];
      r := if fails then Err else Ok(url);
    }

    /** `stripe.billingPortal.sessions.create({customer, return_url})`. */
    method CreatePortalSession(customer: CustomerId, returnUrl: string, url: string, fails: bool) returns (r: Result<string>)
      modifies this`log
      ensures log == old(log) + [NewPortalSession(customer, returnUrl)]
      ensures r == if fails then Err else Ok(url)
    {
      log := log + [NewPortalSession(customer, returnUrl)];
      r := if fails then Err else Ok(url);
    }
  }
}
