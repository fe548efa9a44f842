/** The subscription webhook's handler, on the stored rows it changes. */
module DodoService {
  import opened Wrappers
  import opened Text
  import opened Subscriptions
  import opened Deliveries
  import opened Redelivery
  import opened BillingRepository
  import L = Ledger

  class Service {
    const plans: Catalogue
    const billing: Repository
    var planOf: map<string, string>
    var mandateOf: map<string, string>
    var refs: map<string, seq<Ref>>
    var cancelled: seq<string>
    var accepts: nat    // how many cancellations the provider accepts before one fails

    function Current(): Shop
      reads this, billing
    {
      Shop(billing.Tables(), planOf, mandateOf, refs, cancelled)
    }

    constructor (plans: Catalogue, billing: Repository, planOf: map<string, string>, mandateOf: map<string, string>,
                 refs: map<string, seq<Ref>>, accepts: nat)
      ensures this.plans == plans && this.billing == billing && this.accepts == accepts
      ensures Current() == Shop(billing.Tables(), planOf, mandateOf, refs, [])
    {
      this.plans, this.billing, this.accepts := plans, billing, accepts;
      this.planOf, this.mandateOf, this.refs, this.cancelled := planOf, mandateOf, refs, [];
    }

    /* ----- Reading ----- */

    method StoredPlanOrder(org: string, stored: string) returns (order: int, known: bool)
      ensures (order, known) == StoredOrder(plans, RefsOf(Current(), org), stored)
    {
      var all := RefsOf(Current(), org);
      var id := Trim(stored);
      if id == "" {
        return 0, false;
      }
      var k := 0;
      assert all[k..] == all;
      while k < |all|
        invariant 0 <= k <= |all|
        invariant StoredOrder(plans, all, stored) == StoredOrder(plans, all[k..], stored)
      {
        if Trim(all[k].id) == id {
          return SortOrder(plans, all[k].plan).0, SortOrder(plans, all[k].plan).1;
        }
        assert all[k..][1..] == all[k + 1..];
        k := k + 1;
      }
      order, known := 0, false;
    }

    method PersistDecision(org: string, stored: string, incoming: string, incomingPlan: string, previousPlan: string)
      returns (action: Action)
      ensures action == Decision(plans, RefsOf(Current(), org), stored, incoming, incomingPlan, previousPlan)
    {
      var (incomingOrder, incomingKnown) := SortOrder(plans, incomingPlan);
      var (previousOrder, _) := SortOrder(plans, previousPlan);
      var storedOrder, storedKnown := StoredPlanOrder(org, stored);
      action := SubscriptionPersistAction(stored, incoming, incomingKnown, incomingOrder, previousOrder, storedKnown, storedOrder);
    }

    method SubscriptionAction(d: Delivery, previousPlan: string) returns (action: Action)
      ensures d.org != "" ==> action == Gate(plans, Current(), d, previousPlan)
    {
      if d.org == "" || d.subscription == "" {
        return Adopt;
      }
      action := PersistDecision(d.org, MandateOf(Current(), d), d.subscription, d.plan, previousPlan);
    }

    method PriorSubscriptionIDs(org: string, stored: string, incoming: string) returns (priors: seq<string>)
      ensures priors == Distinct([stored] + Ids(RefsOf(Current(), org)), Excluded(incoming))
    {
      var all := RefsOf(Current(), org);
      var ids, k := [], 0;
      while k < |all|
        invariant 0 <= k <= |all| && |ids| == k
        invariant forall i :: 0 <= i < k ==> ids[i] == all[i].id
      {
        ids := ids + [all[k].id];
        k := k + 1;
      }
      assert ids == Ids(all);
      priors := MergePriorSubscriptionIDs(stored, incoming, ids);
    }

    method LowerPlanSubscriptions(org: string, incoming: string, currentPlan: string) returns (stale: seq<string>)
      ensures var (order, known) := SortOrder(plans, currentPlan);
              stale == StaleIDs(incoming, order, known, Ranked(plans, RefsOf(Current(), org)))
    {
      hide StaleIDs, SortOrder;
      var (order, known) := SortOrder(plans, currentPlan);
      var all := RefsOf(Current(), org);
      var ranked, k := [], 0;
      while k < |all|
        invariant 0 <= k <= |all| && |ranked| == k
        invariant forall i :: 0 <= i < k ==>
                    ranked[i] == RankedRef(all[i].id, SortOrder(plans, all[i].plan).0, SortOrder(plans, all[i].plan).1)
      {
        var (refOrder, refKnown) := SortOrder(plans, all[k].plan);
        ranked := ranked + [RankedRef(all[k].id, refOrder, refKnown)];
        k := k + 1;
      }
      assert ranked == Ranked(plans, all);
      stale := StaleInvoiceIDs(incoming, order, known, ranked);
    }

    /* ----- Writing ----- */

    method AttachPlan(org: string, plan: string) returns (ok: bool)
      modifies this`planOf
      ensures match Attach(plans, old(Current()), org, plan)
              case Some(s') => ok && Current() == s'
              case None => !ok && Current() == old(Current())
    {
      if plan == "" {
        return true;
      }
      if plan !in plans || org !in billing.orgs {
        return false;
      }
      if Rank(plans, Get(planOf, org)) <= plans[plan].order {
        planOf := planOf[org := plan];
      }
      ok := true;
    }

    method SetDodoSubscriptionID(org: string, subscription: string) returns (ok: bool)
      modifies this`mandateOf
      ensures match Store(old(Current()), org, subscription)
              case Some(s') => ok && Current() == s'
              case None => !ok && Current() == old(Current())
    {
      var id := Trim(subscription);
      if id == "" {
        return true;
      }
      if org !in billing.orgs {
        return false;
      }
      mandateOf := mandateOf[org := id];
      ok := true;
    }

    /** In order, until the provider fails. */
    method CancelSubscriptionIDs(ids: seq<string>) returns (ok: bool)
      modifies this`cancelled, this`accepts
      ensures ok == (|ids| <= old(accepts))
      ensures cancelled == old(cancelled) + if |ids| <= old(accepts) then ids else ids[..old(accepts)]
    {
      var k := 0;
      while k < |ids|
        invariant 0 <= k <= |ids| && k + accepts == old(accepts) && cancelled == old(cancelled) + ids[..k]
      {
        if accepts == 0 {
          return false;
        }
        accepts := accepts - 1;
        cancelled := cancelled + [ids[k]];
        k := k + 1;
        assert ids[..k] == ids[..k - 1] + [ids[k - 1]];
      }
      assert ids[..k] == ids;
      ok := true;
    }

    /** Acts on the decision, which is taken here afresh. */
    method PersistSubscription(d: Delivery, previousPlan: string) returns (ok: bool)
      requires d.org != ""
      modifies this`mandateOf, this`cancelled, this`accepts
      ensures var s, n := old(Current()), old(accepts);
              if d.subscription == "" then ok && Current() == s
              else
                match DecisionOf(plans, s, d, previousPlan)
                case Keep =>
                  var ids := Leftovers(plans, s, d, previousPlan);
                  ok == (|ids| <= n) && Current() == s.(cancelled := s.cancelled + AsAccepted(ids, n))
                case Defer => ok && Current() == s
                case Stale => ok == (1 <= n) && Current() == s.(cancelled := s.cancelled + AsAccepted([d.subscription], n))
                case Adopt =>
                  var ids := Priors(s, d, MandateOf(s, d));
                  var (s', stored) := Adopted(s, d);
                  ok == (stored && |ids| <= n)
                  && Current() == if stored then s'.(cancelled := s.cancelled + AsAccepted(ids, n)) else s
    {
      hide Decision, Distinct, StaleIDs, Trim;
      if d.subscription == "" {
        return true;
      }
      var stored := MandateOf(Current(), d);
      var action := PersistDecision(d.org, stored, d.subscription, d.plan, previousPlan);
      match action
      case Keep =>
        var keepPlan := HigherPlan(plans, d.plan, previousPlan);
        var stale := LowerPlanSubscriptions(d.org, d.subscription, keepPlan);
        ok := CancelSubscriptionIDs(stale);
      case Defer =>
        ok := true;
      case Stale =>
        ok := CancelSubscriptionIDs([d.subscription]);
      case Adopt =>
        ok := SetDodoSubscriptionID(d.org, d.subscription);
        if ok {
          var priors := PriorSubscriptionIDs(d.org, stored, d.subscription);
          ok := CancelSubscriptionIDs(priors);
        }
    }

    /** A delivery from its first to its last statement: credits, plan and mandate become what the
        outcome says; what the gate's decision names is then cancelled in order, until the provider
        fails; and the delivery succeeds if all that does. */
    method HandleSubscriptionGrant(d: Delivery) returns (ok: bool)
      modifies this`planOf, this`mandateOf, this`cancelled, this`accepts, billing
      ensures var (s', stored) := Outcome(plans, old(Current()), d);
              var ids := if stored then Cancels(plans, old(Current()), d) else [];
              && Agree(Current(), s')
              && cancelled == old(cancelled) + AsAccepted(ids, old(accepts))
              && ok == (stored && |ids| <= old(accepts))
    {
      if d.org == "" {
        return true;
      }
      hide Paid, Pays, Gate, Decision, Priors, Leftovers, Trim, Granted, Weigh, MandateOf, Store;
      ghost var s := Current();
      var previous := Get(planOf, d.org);
      var action := SubscriptionAction(d, previous);
      ok := GrantIfFit(d, previous, action);
      if !ok {
        return;
      }
      PersistsAsGated(plans, s, d, Current());
      ok := PersistSubscription(d, previous);
    }

    method GrantIfFit(d: Delivery, previous: string, action: Action) returns (ok: bool)
      requires d.org != "" && previous == Previous(Current(), d) && action == GateOf(plans, Current(), d)
      modifies this`planOf, billing
      ensures match Paid(plans, old(Current()), d)
              case Some(s') => ok && Current() == s'
              case None =>
                !ok && Current() == match Granted(old(Current()), d) case Some(s1) => s1 case None => old(Current())
    {
      if action in {Adopt, Keep} && d.credits > 0 && d.plan != "" {
        ok := GrantAndAttach(d, previous);
      } else {
        ok := true;
      }
      hide GateOf, Granted, Attach;
    }

    method GrantAndAttach(d: Delivery, previous: string) returns (ok: bool)
      requires Pays(plans, Current(), d) && previous == Previous(Current(), d)
      modifies this`planOf, billing
      ensures match Paid(plans, old(Current()), d)
              case Some(s') => ok && Current() == s'
              case None =>
                !ok && Current() == match Granted(old(Current()), d) case Some(s1) => s1 case None => old(Current())
    {
      hide LegacyKey, SubscriptionGrantKey, GateOf, L.GrantTx;
      var legacyGranted := false;
      if d.subscription != "" {
        legacyGranted := LegacyKey(d.subscription, d.period) in billing.ledger;
      }
      var granted := billing.GrantCredits(GrantParamsOf(d, previous, legacyGranted));
      if granted.Err? {
        return false;
      }
      ok := AttachPlan(d.org, d.plan);
    }
  }

  function AsAccepted(ids: seq<string>, accepts: nat): seq<string> {
    if |ids| <= accepts then ids else ids[..accepts]
  }

  /** After grant and plan, deciding again, and listing what to cancel again, gives what the gate
      saw. */
  lemma PersistsAsGated(plans: Catalogue, s: Shop, d: Delivery, cur: Shop)
    requires Paid(plans, s, d).Some? && Agree(cur, Paid(plans, s, d).value)
    ensures d.subscription != "" ==> DecisionOf(plans, cur, d, Previous(s, d)) == GateOf(plans, s, d)
    ensures cur.mandateOf == s.mandateOf && cur.refs == s.refs
  {
    if d.subscription != "" {
      ActsAsGated(plans, s, d, cur);
    }
    PaidKeepsMandates(plans, s, d);
    hide Paid, GateOf;
  }
}
