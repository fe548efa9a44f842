/** What a delivery does, told from the stored rows, the plan list and the invoices themselves: which
    mandates it cancels, how it is judged, and what it stores. */
module Mandates {
  import opened Wrappers
  import opened Text
  import opened Subscriptions
  import opened Deliveries
  import opened Redelivery
  import L = Ledger

  /* ----- What adopting cancels ----- */

  function StoredMandate(s: Shop, org: string): string {
    if org in s.mandateOf then Trim(s.mandateOf[org]) else ""
  }

  function Invoiced(s: Shop, org: string): seq<Ref> {
    if org in s.refs then s.refs[org] else []
  }

  /** The stored mandate is seen first, then the invoices' ones in order. */
  predicate SeenAt(stored: string, refs: seq<Ref>, p: nat, id: string) {
    if p == 0 then stored == id else p <= |refs| && Trim(refs[p - 1].id) == id
  }

  lemma {:induction false} FirstAtIsFirst(ids: seq<string>, id: string, p: nat)
    requires p < |ids| && Trim(ids[p]) == id
    ensures FirstAt(ids, id) <= p && Trim(ids[FirstAt(ids, id)]) == id
    decreases |ids|
  {
    hide Trim;
    if Trim(ids[0]) != id {
      FirstAtIsFirst(ids[1..], id, p - 1);
    }
  }

  lemma SeenIsMentioned(stored: string, refs: seq<Ref>, id: string)
    requires Trim(stored) == stored
    ensures Mentions([stored] + Ids(refs), id) <==> stored == id || exists k :: 0 <= k < |refs| && Trim(refs[k].id) == id
    ensures forall p: nat :: SeenAt(stored, refs, p, id) <==> p < |[stored] + Ids(refs)| && Trim(([stored] + Ids(refs))[p]) == id
  {
    hide Trim;
    var all := [stored] + Ids(refs);
    forall k | 0 <= k < |refs|
      ensures all[k + 1] == refs[k].id
    {
    }
    if Mentions(all, id) && stored != id {
      var i :| 0 <= i < |all| && Trim(all[i]) == id;
      assert Trim(refs[i - 1].id) == id;
    }
    if stored == id {
      assert Trim(all[0]) == id;
    }
    if k :| 0 <= k < |refs| && Trim(refs[k].id) == id {
      assert Trim(all[k + 1]) == id;
    }
  }

  /** The first identifier is seen before the second one is. */
  ghost predicate SeenBefore(stored: string, refs: seq<Ref>, x: string, y: string) {
    forall p: nat :: SeenAt(stored, refs, p, y) ==> exists q: nat :: q < p && SeenAt(stored, refs, q, x)
  }

  /** Exactly the stored mandate and the invoices' ones, the incoming one and blanks apart, each once
      and in the order in which they are first seen. */
  ghost predicate ReplacesExactly(out: seq<string>, incoming: string, stored: string, refs: seq<Ref>) {
    && (forall id :: id in out <==>
          && id != "" && id != Trim(incoming)
          && (id == stored || exists k :: 0 <= k < |refs| && Trim(refs[k].id) == id))
    && (forall i, j :: 0 <= i < j < |out| ==> out[i] != out[j])
    && (forall i, j :: 0 <= i < j < |out| ==> SeenBefore(stored, refs, out[i], out[j]))
  }

  lemma FirstIsSeenBefore(stored: string, refs: seq<Ref>, x: string, y: string)
    requires Trim(stored) == stored && Mentions([stored] + Ids(refs), x)
    requires FirstAt([stored] + Ids(refs), x) < FirstAt([stored] + Ids(refs), y)
    ensures SeenBefore(stored, refs, x, y)
  {
    hide Trim;
    var all := [stored] + Ids(refs);
    SeenIsMentioned(stored, refs, x);
    SeenIsMentioned(stored, refs, y);
    var b :| 0 <= b < |all| && Trim(all[b]) == x;
    FirstAtIsFirst(all, x, b);
    var q := FirstAt(all, x);
    hide SeenAt;
    forall p: nat | SeenAt(stored, refs, p, y)
      ensures q < p && SeenAt(stored, refs, q, x)
    {
      FirstAtIsFirst(all, y, p);
    }
  }

  lemma PriorsExactly(stored: string, incoming: string, refs: seq<Ref>)
    requires Trim(stored) == stored
    ensures ReplacesExactly(Distinct([stored] + Ids(refs), Excluded(incoming)), incoming, stored, refs)
  {
    hide Trim, Distinct, SeenBefore, Mentions, FirstAt;
    var all := [stored] + Ids(refs);
    var out := Distinct(all, Excluded(incoming));
    DistinctIsExact(all, Excluded(incoming));
    forall id
      ensures Mentions(all, id) <==> stored == id || exists k :: 0 <= k < |refs| && Trim(refs[k].id) == id
    {
      SeenIsMentioned(stored, refs, id);
    }
    forall i, j | 0 <= i < j < |out|
      ensures SeenBefore(stored, refs, out[i], out[j])
    {
      assert out[i] in out;
      FirstIsSeenBefore(stored, refs, out[i], out[j]);
    }
  }

  /** An adopted subscription replaces everything else the organization has: a delivery that completes
      has cancelled exactly the mandate stored before it and every one the invoices list, except its
      own, each once and in the order in which they are first seen. */
  lemma AdoptingCancelsExactly(plans: Catalogue, s: Shop, d: Delivery)
    requires d.org != "" && d.subscription != "" && GateOf(plans, s, d) == Adopt
    requires Finish(plans, s, d, Fresh).1.Finished?
    ensures var end := Finish(plans, s, d, Fresh).0;
            && s.cancelled <= end.cancelled
            && ReplacesExactly(end.cancelled[|s.cancelled|..], d.subscription, StoredMandate(s, d.org), Invoiced(s, d.org))
  {
    FinishCancelsAsGated(plans, s, d);
    StoredIsTrimmed(s, d);
    PriorsExactly(StoredMandate(s, d.org), d.subscription, Invoiced(s, d.org));
    hide Finish, GateOf, Trim, Distinct, ReplacesExactly, StoredMandate;
    assert Finish(plans, s, d, Fresh).0.cancelled[|s.cancelled|..] == Cancels(plans, s, d);
  }

  lemma StoredIsTrimmed(s: Shop, d: Delivery)
    ensures StoredMandate(s, d.org) == MandateOf(s, d) && Trim(StoredMandate(s, d.org)) == StoredMandate(s, d.org)
  {
    if d.org in s.mandateOf {
      TrimmedOnce(s.mandateOf[d.org]);
    }
    assert Trim("") == "";
    hide Trim;
  }

  /* ----- What keeping cancels ----- */

  /** The plan is on the list and not retired. */
  predicate Offered(plans: Catalogue, slug: string) {
    Trim(slug) != "" && Trim(slug) in plans && plans[Trim(slug)].active
  }

  /** Both plans are offered, and the first ranks below the second. */
  predicate RanksBelow(plans: Catalogue, a: string, b: string) {
    Offered(plans, a) && Offered(plans, b) && plans[Trim(a)].order < plans[Trim(b)].order
  }

  /** The invoices list the mandate, there, with a plan below the incoming one or the organization's. */
  predicate LowAt(plans: Catalogue, refs: seq<Ref>, incomingPlan: string, previous: string, k: nat, id: string) {
    && k < |refs| && Trim(refs[k].id) == id
    && (RanksBelow(plans, refs[k].plan, incomingPlan) || RanksBelow(plans, refs[k].plan, previous))
  }

  lemma LowIsRanked(plans: Catalogue, refs: seq<Ref>, incomingPlan: string, previous: string, k: nat, id: string)
    requires k < |refs|
    ensures var (order, known) := SortOrder(plans, HigherPlan(plans, incomingPlan, previous));
            var r := Ranked(plans, refs)[k];
            LowAt(plans, refs, incomingPlan, previous, k, id) <==> known && r.known && r.order < order && Trim(r.id) == id
  {
    hide Trim;
  }

  lemma {:induction false} BelowKeepsOrder(refs: seq<RankedRef>, order: int, x: string, y: string, p: nat)
    requires FirstAt(Below(refs, order), x) < FirstAt(Below(refs, order), y)
    requires p < |refs| && refs[p].known && refs[p].order < order && Trim(refs[p].id) == y
    requires Mentions(Below(refs, order), x)
    ensures exists q :: 0 <= q < p && refs[q].known && refs[q].order < order && Trim(refs[q].id) == x
    decreases |refs|
  {
    hide Trim;
    var low := refs[0].known && refs[0].order < order;
    if low {
      MentionsTail(Below(refs, order), x);
      assert Below(refs, order)[1..] == Below(refs[1..], order);
    }
    if !(low && Trim(refs[0].id) == x) {
      assert p > 0;
      assert refs[1..][p - 1] == refs[p];
      BelowKeepsOrder(refs[1..], order, x, y, p - 1);
      var q :| 0 <= q < p - 1 && refs[1..][q].known && refs[1..][q].order < order && Trim(refs[1..][q].id) == x;
      assert refs[q + 1] == refs[1..][q];
    }
  }

  /** The first identifier is listed low before the second one is. */
  ghost predicate LowBefore(plans: Catalogue, refs: seq<Ref>, incomingPlan: string, previous: string, x: string, y: string) {
    forall p: nat :: LowAt(plans, refs, incomingPlan, previous, p, y) ==>
      exists q: nat :: q < p && LowAt(plans, refs, incomingPlan, previous, q, x)
  }

  /** Exactly the invoices' other mandates whose plan is offered and ranks below an offered incoming
      plan or the organization's offered plan, each once and in the order in which they are listed. */
  ghost predicate TidiesExactly(out: seq<string>, plans: Catalogue, incoming: string, incomingPlan: string,
                                previous: string, refs: seq<Ref>) {
    && (forall id :: id in out <==>
          id != "" && id != Trim(incoming) && exists k: nat :: LowAt(plans, refs, incomingPlan, previous, k, id))
    && (forall i, j :: 0 <= i < j < |out| ==> out[i] != out[j])
    && (forall i, j :: 0 <= i < j < |out| ==> LowBefore(plans, refs, incomingPlan, previous, out[i], out[j]))
  }

  lemma LowIsBelow(plans: Catalogue, refs: seq<Ref>, incomingPlan: string, previous: string, id: string)
    ensures var (order, known) := SortOrder(plans, HigherPlan(plans, incomingPlan, previous));
            var ranked := Ranked(plans, refs);
            && (forall k: nat :: LowAt(plans, refs, incomingPlan, previous, k, id)
                  <==> k < |refs| && known && ranked[k].known && ranked[k].order < order && Trim(ranked[k].id) == id)
            && ((exists k: nat :: LowAt(plans, refs, incomingPlan, previous, k, id))
                <==> known && Mentions(Below(ranked, order), id))
  {
    var (order, known) := SortOrder(plans, HigherPlan(plans, incomingPlan, previous));
    var ranked := Ranked(plans, refs);
    forall k: nat
      ensures LowAt(plans, refs, incomingPlan, previous, k, id)
              <==> k < |refs| && known && ranked[k].known && ranked[k].order < order && Trim(ranked[k].id) == id
    {
      if k < |refs| {
        LowIsRanked(plans, refs, incomingPlan, previous, k, id);
      }
    }
    hide Trim, Below, HigherPlan, SortOrder, LowAt, Ranked, Mentions;
    BelowMentions(ranked, order, id);
  }

  lemma LowInOrder(plans: Catalogue, refs: seq<Ref>, incomingPlan: string, previous: string, x: string, y: string)
    requires var (order, known) := SortOrder(plans, HigherPlan(plans, incomingPlan, previous));
             var below := Below(Ranked(plans, refs), order);
             Mentions(below, x) && FirstAt(below, x) < FirstAt(below, y)
    ensures LowBefore(plans, refs, incomingPlan, previous, x, y)
  {
    hide Trim, Below, HigherPlan, SortOrder, LowAt, Ranked, Mentions, FirstAt;
    var (order, known) := SortOrder(plans, HigherPlan(plans, incomingPlan, previous));
    var ranked := Ranked(plans, refs);
    LowIsBelow(plans, refs, incomingPlan, previous, x);
    LowIsBelow(plans, refs, incomingPlan, previous, y);
    forall p: nat | LowAt(plans, refs, incomingPlan, previous, p, y)
      ensures exists q: nat :: q < p && LowAt(plans, refs, incomingPlan, previous, q, x)
    {
      BelowKeepsOrder(ranked, order, x, y, p);
      var q :| 0 <= q < p && ranked[q].known && ranked[q].order < order && Trim(ranked[q].id) == x;
      assert LowAt(plans, refs, incomingPlan, previous, q, x);
    }
  }

  lemma LeftoversExactly(plans: Catalogue, incoming: string, incomingPlan: string, previous: string, refs: seq<Ref>)
    ensures var (order, known) := SortOrder(plans, HigherPlan(plans, incomingPlan, previous));
            TidiesExactly(StaleIDs(incoming, order, known, Ranked(plans, refs)), plans, incoming, incomingPlan, previous, refs)
  {
    hide Trim, Distinct, Below, HigherPlan, SortOrder, LowAt, Ranked, Mentions, FirstAt, LowBefore;
    var (order, known) := SortOrder(plans, HigherPlan(plans, incomingPlan, previous));
    var below := Below(Ranked(plans, refs), order);
    var out := StaleIDs(incoming, order, known, Ranked(plans, refs));
    DistinctIsExact(below, Excluded(incoming));
    forall id
      ensures id in out
              <==> id != "" && id != Trim(incoming) && exists k: nat :: LowAt(plans, refs, incomingPlan, previous, k, id)
    {
      LowIsBelow(plans, refs, incomingPlan, previous, id);
    }
    if known {
      forall i, j | 0 <= i < j < |out|
        ensures LowBefore(plans, refs, incomingPlan, previous, out[i], out[j])
      {
        assert out[i] in out;
        LowInOrder(plans, refs, incomingPlan, previous, out[i], out[j]);
      }
    }
  }

  /** A kept mandate leaves alone what might be an upgrade: a delivery that completes has cancelled
      exactly the lower ones that the invoices list. */
  lemma KeepingCancelsExactly(plans: Catalogue, s: Shop, d: Delivery)
    requires d.org != "" && d.subscription != "" && GateOf(plans, s, d) == Keep
    requires Finish(plans, s, d, Fresh).1.Finished?
    ensures var end := Finish(plans, s, d, Fresh).0;
            && s.cancelled <= end.cancelled
            && TidiesExactly(end.cancelled[|s.cancelled|..], plans, d.subscription, d.plan,
                             if d.org in s.planOf then s.planOf[d.org] else "", Invoiced(s, d.org))
  {
    FinishCancelsAsGated(plans, s, d);
    LeftoversExactly(plans, d.subscription, d.plan, Previous(s, d), Invoiced(s, d.org));
    hide Finish, GateOf, Trim, StaleIDs, HigherPlan, SortOrder, Ranked, TidiesExactly;
    assert Finish(plans, s, d, Fresh).0.cancelled[|s.cancelled|..] == Cancels(plans, s, d);
  }

  /* ----- How a delivery is judged ----- */

  /** The invoices' first listing of the stored mandate. */
  predicate FirstListing(refs: seq<Ref>, stored: string, k: nat) {
    && stored != "" && k < |refs| && Trim(refs[k].id) == stored
    && forall j :: 0 <= j < k ==> Trim(refs[j].id) != stored
  }

  lemma {:induction false} ListedOrder(plans: Catalogue, refs: seq<Ref>, stored: string)
    requires Trim(stored) == stored
    ensures forall k: nat :: FirstListing(refs, stored, k) ==> StoredOrder(plans, refs, stored) == SortOrder(plans, refs[k].plan)
    ensures (forall k: nat :: !FirstListing(refs, stored, k)) ==> StoredOrder(plans, refs, stored) == (0, false)
    decreases |refs|
  {
    hide Trim, SortOrder;
    if stored != "" && refs != [] {
      if Trim(refs[0].id) == stored {
        assert FirstListing(refs, stored, 0);
      } else {
        ListedOrder(plans, refs[1..], stored);
        forall k: nat
          ensures FirstListing(refs, stored, k) <==> k > 0 && FirstListing(refs[1..], stored, k - 1)
        {
          ListingLater(refs, stored, k);
        }
        assert forall k: nat :: FirstListing(refs[1..], stored, k) ==> FirstListing(refs, stored, k + 1);
      }
    }
  }

  lemma ListingLater(refs: seq<Ref>, stored: string, k: nat)
    requires refs != [] && Trim(refs[0].id) != stored
    ensures FirstListing(refs, stored, k) <==> k > 0 && FirstListing(refs[1..], stored, k - 1)
  {
    hide Trim;
    if k > 0 && FirstListing(refs[1..], stored, k - 1) {
      forall j | 0 < j < k
        ensures Trim(refs[j].id) != stored
      {
        assert refs[j] == refs[1..][j - 1];
      }
    }
  }

  /** A plan's rank, and 0 for one that is not offered. */
  function OfferedRank(plans: Catalogue, slug: string): int {
    if Offered(plans, slug) then plans[Trim(slug)].order else 0
  }

  /** The stored mandate's plan, as far as the invoices tell, ranks below the incoming one. */
  ghost predicate StoredRanksBelow(plans: Catalogue, refs: seq<Ref>, stored: string, incomingPlan: string) {
    exists k: nat :: FirstListing(refs, stored, k) && RanksBelow(plans, refs[k].plan, incomingPlan)
  }

  lemma StoredRankIs(plans: Catalogue, refs: seq<Ref>, stored: string, incomingPlan: string)
    requires Trim(stored) == stored
    ensures var (incomingOrder, incomingKnown) := SortOrder(plans, incomingPlan);
            var (storedOrder, storedKnown) := StoredOrder(plans, refs, stored);
            StoredRanksBelow(plans, refs, stored, incomingPlan) <==> incomingKnown && storedKnown && incomingOrder > storedOrder
  {
    ListedOrder(plans, refs, stored);
    hide Trim, StoredOrder;
    if k: nat :| FirstListing(refs, stored, k) {
      forall j: nat | FirstListing(refs, stored, j)
        ensures j == k
      {
        OneFirstListing(refs, stored, j, k);
      }
    }
  }

  lemma OneFirstListing(refs: seq<Ref>, stored: string, j: nat, k: nat)
    requires FirstListing(refs, stored, j) && FirstListing(refs, stored, k)
    ensures j == k
  {
  }

  /** The whole judgement. An offered plan is adopted if it ranks above the stored mandate's or above the
      organization's, or meets no mandate and no higher plan; one that is not offered only where
      there is neither mandate nor rank, and is deferred otherwise. The stored subscription itself
      is kept unless the organization outranks it. Everything else is stale. */
  lemma JudgedExactly(plans: Catalogue, s: Shop, d: Delivery)
    requires d.subscription != ""
    ensures var stored, refs := StoredMandate(s, d.org), Invoiced(s, d.org);
            var incoming := OfferedRank(plans, d.plan);
            var current := OfferedRank(plans, if d.org in s.planOf then s.planOf[d.org] else "");
            var action := GateOf(plans, s, d);
            && (action == Adopt <==>
                  && stored != d.subscription
                  && if Offered(plans, d.plan) then
                       || StoredRanksBelow(plans, refs, stored, d.plan)
                       || incoming > current
                       || (stored == "" && (current == 0 || incoming == current))
                     else stored == "" && current == 0)
            && (action == Keep <==> stored == d.subscription && !(Offered(plans, d.plan) && incoming < current))
            && (action == Defer <==> stored != d.subscription && !Offered(plans, d.plan) && (stored != "" || current != 0))
  {
    StoredIsTrimmed(s, d);
    StoredRankIs(plans, Invoiced(s, d.org), StoredMandate(s, d.org), d.plan);
    hide Trim, StoredOrder, StoredRanksBelow;
  }

  /* ----- What a delivery stores ----- */

  /** The ledger row of a delivery's grant: one per subscription, plan and month; without a subscription
      one per event type, month and organization. A month granted before plans had rows of their own
      counts for the plan the organization is on. */
  function RowOf(s: Shop, d: Delivery): string {
    var current := if d.org in s.planOf then s.planOf[d.org] else "";
    var old_ := "dodo_period:" + (d.subscription + ":" + d.period);
    if d.subscription == "" then "dodo_event:" + (d.eventType + ":" + d.period + ":" + d.org)
    else if d.plan == current && old_ in s.db.ledger then old_
    else "dodo_period:" + (d.subscription + ":" + (d.plan + ":" + d.period))
  }

  /** The credit tables after a grant of a row that may be there already. */
  function Credited(db: L.Db, org: string, row: string, credits: int): L.Db
    requires org in db.orgs
  {
    if row in db.ledger then db
    else
      var o := db.orgs[org];
      db.(ledger := db.ledger[row := L.Entry(org, L.Grant, credits)],
          orgs := db.orgs[org := L.Org(o.granted + credits, o.used, o.remaining + credits)])
  }

  /** The incoming plan ranks at least as high as the organization's, retired plans counted by rank. */
  predicate Raises(plans: Catalogue, s: Shop, d: Delivery) {
    var current := if d.org in s.planOf then s.planOf[d.org] else "";
    d.plan in plans && (if current in plans then plans[current].order else 0) <= plans[d.plan].order
  }

  lemma GrantedExactly(s: Shop, d: Delivery)
    requires d.org in s.db.orgs && d.credits > 0 && d.plan != ""
    ensures Granted(s, d) == Some(s.(db := Credited(s.db, d.org, RowOf(s, d), d.credits)))
  {
    SameRow(s, d);
  }

  lemma SameRow(s: Shop, d: Delivery)
    requires d.plan != ""
    ensures GrantParamsOf(d, Previous(s, d), LegacyIn(s, d)) == L.GrantParams(d.org, d.credits, RowOf(s, d))
    ensures RowOf(s, d) != ""
  {
  }

  lemma PaidExactly(plans: Catalogue, s: Shop, d: Delivery)
    requires Pays(plans, s, d) && d.org in s.db.orgs
    ensures var s1 := s.(db := Credited(s.db, d.org, RowOf(s, d), d.credits));
            && Granted(s, d) == Some(s1)
            && Paid(plans, s, d)
               == (if d.plan in plans then Some(s1.(planOf := if Raises(plans, s, d) then s.planOf[d.org := d.plan] else s.planOf))
                   else None)
  {
    GrantedExactly(s, d);
    hide GateOf, Granted, RowOf, Credited;
  }

  /** A delivery that is adopted or kept, from its first to its last statement: its credits are granted
      under its row, unless that is there already; the plan is raised if it ranks as high; an adopted
      subscription becomes the mandate. It fails exactly if its plan is not listed at all, after the
      grant. */
  lemma DeliveryStoresExactly(plans: Catalogue, s: Shop, d: Delivery)
    requires Clean(d) && d.org != "" && d.org in s.db.orgs && GateOf(plans, s, d) in {Adopt, Keep}
    ensures var (end, pc) := Finish(plans, s, d, Fresh);
            var pays := d.credits > 0 && d.plan != "";
            var ok := pays ==> d.plan in plans;
            && pc == (if ok then Finished else Failed)
            && end.refs == s.refs
            && end.db == (if pays then Credited(s.db, d.org, RowOf(s, d), d.credits) else s.db)
            && end.planOf == (if pays && Raises(plans, s, d) then s.planOf[d.org := d.plan] else s.planOf)
            && end.mandateOf == (if ok && d.subscription != "" && GateOf(plans, s, d) == Adopt
                                 then s.mandateOf[d.org := d.subscription] else s.mandateOf)
  {
    FinishIsOutcome(plans, s, d);
    if d.credits > 0 && d.plan != "" {
      PaidExactly(plans, s, d);
    }
    hide Finish, GateOf, Granted, Paid, RowOf, Raises;
  }

  /** A deferred delivery changes nothing at all and cancels nothing. */
  lemma DeferredDoesNothing(plans: Catalogue, s: Shop, d: Delivery)
    requires d.org != "" && d.subscription != "" && GateOf(plans, s, d) == Defer
    ensures Finish(plans, s, d, Fresh) == (s, Finished)
  {
    hide Decision, Priors, Leftovers, LegacyKey, GrantParamsOf, L.GrantTx, Trim;
    var p := Previous(s, d);
    assert Finish(plans, s, d, Reweighing(p, MandateOf(s, d))) == (s, Finished);
    assert Finish(plans, s, d, Persisting(p)) == (s, Finished);
    assert Finish(plans, s, d, Weighing(p, MandateOf(s, d))) == (s, Finished);
    assert Finish(plans, s, d, Gating(p)) == (s, Finished);
  }
}
