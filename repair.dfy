/** The one-off repair script of server/fix_user.js: it re-derives `pro` for
    one fixed user from the subscriptions of the user's linked customer. It
    only ever promotes; it never writes `free`. */
module Repair {
  import opened Common
  import opened Providers
  import Server

  /** The user the script repairs. */
  const TargetUserId: UserId := "user_36tFsUxkYJeU9uftwflPTt5iVqO"

  /** The statuses the script accepts as paying. Unlike the webhook, it tests
      Stripe's own spelling, 'trialing'. */
  predicate IsLive(sub: Subscription)
  {
    sub.status == "active" || sub.status == "trialing"
  }

  predicate HasLive(subs: seq<Subscription>)
  {
    exists i :: 0 <= i < |subs| && IsLive(subs[i])
  }

  /** `subs.find(sub => sub.status === 'active' || sub.status === 'trialing')`:
      the first live subscription in list order. */
  method FindLiveSubscription(subs: seq<Subscription>) returns (found: Option<Subscription>)
    ensures found.Some? <==> HasLive(subs)
    ensures found.Some? ==> exists i :: 0 <= i < |subs| && subs[i] == found.value && IsLive(subs[i])
                                        && forall j :: 0 <= j < i ==> !IsLive(subs[j])
  {
    var i := 0;
    while i < |subs|
      invariant 0 <= i <= |subs|
      invariant forall j :: 0 <= j < i ==> !IsLive(subs[j])
    {
      if IsLive(subs[i]) {
        return Some(subs[i]);
      }
      i := i + 1;
    }
    return None;
  }

  /** What the script wrote to the log: where it stopped. */
  datatype FixOutcome = Failed | NoCustomerId | Promoted | NoLiveSubscription

  /** The patch the script writes: `pro`, and the customer id it already had. */
  function RepairPatch(customer: CustomerId): (patch: map<string, Json>)
    ensures patch.Keys == {"plan", "stripeCustomerId"}
    ensures patch["plan"] == JStr("pro") && patch["stripeCustomerId"] == JStr(customer)
  {
    map["plan" := JStr("pro"), "stripeCustomerId" := JStr(customer)]
  }

  /** `fix()`: read the target user; stop unless it has a linked customer;
      read that customer with its subscriptions; promote the user when one of
      them is live. Any rejected call ends the run; no other write follows. */
  method Fix(p: Providers, faults: set<nat>) returns (outcome: FixOutcome)
    modifies p`users, p`log
    ensures 0 in faults || TargetUserId !in old(p.users) ==>
      outcome == Failed && p.log == old(p.log) + [ReadUser(TargetUserId)] && p.users == old(p.users)
    ensures 0 !in faults && TargetUserId in old(p.users) ==>
      var linked := Server.LinkedCustomer(old(p.users)[TargetUserId]);
      if linked.None? then
        outcome == NoCustomerId && p.log == old(p.log) + [ReadUser(TargetUserId)] && p.users == old(p.users)
      else
        var cid := linked.value;
        if 1 in faults || cid !in p.customers then
          && outcome == Failed && p.users == old(p.users)
          && p.log == old(p.log) + [ReadUser(TargetUserId), ReadCustomer(cid)]
        else if !HasLive(p.customers[cid].subscriptions) then
          && outcome == NoLiveSubscription && p.users == old(p.users)
          && p.log == old(p.log) + [ReadUser(TargetUserId), ReadCustomer(cid)]
        else
          && p.log == old(p.log) + [ReadUser(TargetUserId), ReadCustomer(cid), PatchUser(TargetUserId, RepairPatch(cid))]
          && p.users == (if 2 in faults then old(p.users) else WithUserPatch(old(p.users), TargetUserId, RepairPatch(cid)))
          && outcome == (if 2 in faults then Failed else Promoted)
  {
    var user := p.GetUser(TargetUserId, 0 in faults);
    if user.Err? {
      return Failed;
    }
    var stripeCustomerId := Server.LinkedCustomer(user.value);
    if stripeCustomerId.None? {
      return NoCustomerId;
    }
    var customer := p.RetrieveCustomer(stripeCustomerId.value, 1 in faults);
    if customer.Err? {
      return Failed;
    }
    var activeSub := FindLiveSubscription(customer.value.subscriptions);
    if activeSub.None? {
      return NoLiveSubscription;
    }
    var ok := p.UpdateUserMetadata(TargetUserId, RepairPatch(stripeCustomerId.value), 2 in faults);
    outcome := if ok then Promoted else Failed;
  }

  /** The script's write never demotes and never moves the link: on a record
      already linked to `customer` it sets `plan` to 'pro' and changes no
      other key. */
  lemma {:induction false} RepairWriteOnlyPromotes(meta: map<string, Json>, customer: CustomerId)
    requires Lookup(meta, "stripeCustomerId") == Some(JStr(customer))
    ensures Merge(meta, RepairPatch(customer)) == meta["plan" := JStr("pro")]
  {
    var merged := Merge(meta, RepairPatch(customer));
    assert merged.Keys == meta["plan" := JStr("pro")].Keys;
    forall k | k in merged
      ensures merged[k] == meta["plan" := JStr("pro")][k]
    {
      if k != "plan" && k != "stripeCustomerId" {
        assert k !in RepairPatch(customer);
      }
    }
  }

  /** On a 'trialing' subscription the repair script grants pro while the
      webhook's status mapping grants free. */
  lemma TrialingDivergence(sub: Subscription)
    requires sub.status == "trialing"
    ensures IsLive(sub)
    ensures Server.PlanForStatus(sub.status) == Server.Free
  {
  }
}
