/** What the payment provider's subscription events decide: which mandate an organization keeps,
    which ones are cancelled, and under which key a month's credits are granted. */
module Subscriptions {
  import opened Text

  /* ----- Plans ----- */

  datatype Plan = Plan(order: int, active: bool)

  type Catalogue = map<string, Plan>

  /** A plan's rank, and whether the plan is known: retired plans are not. */
  function SortOrder(plans: Catalogue, slug: string): (int, bool) {
    var s := Trim(slug);
    if s != "" && s in plans && plans[s].active then (plans[s].order, true) else (0, false)
  }

  function PickHigherPlan(incomingPlan: string, previousPlan: string,
                          incomingKnown: bool, incomingOrder: int, previousKnown: bool, previousOrder: int): string {
    if incomingKnown && (!previousKnown || incomingOrder > previousOrder) then incomingPlan else previousPlan
  }

  function HigherPlan(plans: Catalogue, incomingPlan: string, previousPlan: string): string {
    var (incomingOrder, incomingKnown) := SortOrder(plans, incomingPlan);
    var (previousOrder, previousKnown) := SortOrder(plans, previousPlan);
    PickHigherPlan(incomingPlan, previousPlan, incomingKnown, incomingOrder, previousKnown, previousOrder)
  }

  /** The higher plan is one of the two; it is known if either is, and no known one ranks above it. */
  lemma HigherPlanIsHighest(plans: Catalogue, a: string, b: string)
    ensures var h := HigherPlan(plans, a, b);
            && (h == a || h == b)
            && (SortOrder(plans, h).1 <==> SortOrder(plans, a).1 || SortOrder(plans, b).1)
            && (SortOrder(plans, a).1 ==> SortOrder(plans, a).0 <= SortOrder(plans, h).0)
            && (SortOrder(plans, b).1 ==> SortOrder(plans, b).0 <= SortOrder(plans, h).0)
  {
  }

  /* ----- Which mandate to keep ----- */

  datatype Action = Keep | Stale | Adopt | Defer

  function SubscriptionPersistAction(stored: string, incoming: string, incomingKnown: bool, incomingOrder: int,
                                     previousOrder: int, storedKnown: bool, storedOrder: int): Action {
    if incoming == "" then Keep
    else if stored == incoming then
      if incomingKnown && incomingOrder < previousOrder then Stale else Keep
    else if !incomingKnown then
      if stored == "" && previousOrder == 0 then Adopt else Defer
    else if storedKnown && incomingOrder > storedOrder then Adopt
    else
      var isUpgrade := incomingOrder > previousOrder;
      var isFirst := stored == "" && previousOrder == 0;
      if isUpgrade || isFirst || (stored == "" && incomingOrder >= previousOrder) then Adopt else Stale
  }

  /** A subscription that the organization's invoices mention, with the plan it last paid for. */
  datatype Ref = Ref(id: string, plan: string)

  /** The rank of the stored mandate, as far as the invoices tell. */
  function StoredOrder(plans: Catalogue, refs: seq<Ref>, stored: string): (int, bool)
    decreases |refs|
  {
    if Trim(stored) == "" || refs == [] then (0, false)
    else if Trim(refs[0].id) == Trim(stored) then SortOrder(plans, refs[0].plan)
    else StoredOrder(plans, refs[1..], stored)
  }

  function Decision(plans: Catalogue, refs: seq<Ref>, stored: string, incoming: string,
                    incomingPlan: string, previousPlan: string): Action {
    var (incomingOrder, incomingKnown) := SortOrder(plans, incomingPlan);
    var (storedOrder, storedKnown) := StoredOrder(plans, refs, stored);
    SubscriptionPersistAction(stored, incoming, incomingKnown, incomingOrder, SortOrder(plans, previousPlan).0,
                              storedKnown, storedOrder)
  }

  /** The plan an organization is on once the incoming plan was attached: retired plans count by
      their rank here. */
  function Attached(plans: Catalogue, current: string, incoming: string): string
    requires incoming in plans
  {
    if (if current in plans then plans[current].order else 0) <= plans[incoming].order then incoming else current
  }

  /** The stored mandate does not stand in the way of the incoming one: there is none, it is the
      incoming one itself, or it is known to be on a lower plan. */
  predicate Yields(plans: Catalogue, refs: seq<Ref>, stored: string, incoming: string, incomingPlan: string) {
    || stored == "" || stored == incoming
    || var (storedOrder, storedKnown) := StoredOrder(plans, refs, stored);
       storedKnown && storedOrder < SortOrder(plans, incomingPlan).0
  }

  /** Deciding again after the plan was attached comes to the same result, except in one case: an
      upgrade that replaces a mandate whose plan the invoices do not show to be lower. The second
      decision then takes the subscription just paid for to be stale. */
  lemma RetryIsStableExactly(plans: Catalogue, refs: seq<Ref>, stored: string, incoming: string,
          incomingPlan: string, previous: string)
    requires incomingPlan in plans && Trim(incomingPlan) == incomingPlan && incomingPlan != ""
    requires Decision(plans, refs, stored, incoming, incomingPlan, previous) in {Adopt, Keep}
    ensures var again := Decision(plans, refs, stored, incoming, incomingPlan, Attached(plans, previous, incomingPlan));
            (again == Decision(plans, refs, stored, incoming, incomingPlan, previous)
             <==> (|| incoming == ""
                   || Attached(plans, previous, incomingPlan) == previous
                   || !plans[incomingPlan].active
                   || Yields(plans, refs, stored, incoming, incomingPlan)))
            && (again != Decision(plans, refs, stored, incoming, incomingPlan, previous) ==> again == Stale)
  {
  }

  /** An adopted mandate, once stored, is kept by every later delivery of the same event, except
      that it is taken for stale if the organization is on a higher plan than the one it pays for. */
  lemma AdoptedIsKeptExactly(plans: Catalogue, refs: seq<Ref>, incoming: string, incomingPlan: string, current: string)
    requires incoming != ""
    ensures Decision(plans, refs, incoming, incoming, incomingPlan, current) in {Keep, Stale}
    ensures Decision(plans, refs, incoming, incoming, incomingPlan, current) == Keep
            <==> (!SortOrder(plans, incomingPlan).1 || SortOrder(plans, current).0 <= SortOrder(plans, incomingPlan).0)
  {
  }

  /* ----- Which mandates to cancel ----- */

  /** The identifiers that occur, each once, in the order in which they occur first, without the
      blank ones and those already seen. */
  function Distinct(ids: seq<string>, seen: set<string>): seq<string>
    decreases |ids|
  {
    if ids == [] then []
    else
      var id := Trim(ids[0]);
      if id == "" || id in seen then Distinct(ids[1..], seen)
      else [id] + Distinct(ids[1..], seen + {id})
  }

  predicate Mentions(ids: seq<string>, id: string) {
    exists i :: 0 <= i < |ids| && Trim(ids[i]) == id
  }

  /** Where an identifier occurs first. */
  function FirstAt(ids: seq<string>, id: string): nat
    decreases |ids|
  {
    if ids == [] || Trim(ids[0]) == id then 0 else 1 + FirstAt(ids[1..], id)
  }

  /** The list has exactly the identifiers mentioned and not excluded, none twice, in the order of
      their first occurrence. */
  ghost predicate ListsExactly(out: seq<string>, ids: seq<string>, excluded: set<string>) {
    && (forall id :: id in out <==> id != "" && id !in excluded && Mentions(ids, id))
    && (forall i, j :: 0 <= i < j < |out| ==> out[i] != out[j])
    && (forall i, j :: 0 <= i < j < |out| ==> FirstAt(ids, out[i]) < FirstAt(ids, out[j]))
  }

  lemma MentionsTail(ids: seq<string>, id: string)
    requires ids != []
    ensures Mentions(ids, id) <==> Trim(ids[0]) == id || Mentions(ids[1..], id)
  {
    if Mentions(ids, id) && Trim(ids[0]) != id {
      var i :| 0 <= i < |ids| && Trim(ids[i]) == id;
      assert Trim(ids[1..][i - 1]) == id;
    }
    if Mentions(ids[1..], id) {
      var i :| 0 <= i < |ids[1..]| && Trim(ids[1..][i]) == id;
      assert Trim(ids[i + 1]) == id;
    }
  }

  lemma {:induction false} DistinctIsExact(ids: seq<string>, seen: set<string>)
    ensures ListsExactly(Distinct(ids, seen), ids, seen)
    decreases |ids|
  {
    if ids != [] {
      var id := Trim(ids[0]);
      var rest := Distinct(ids[1..], if id == "" || id in seen then seen else seen + {id});
      hide Trim;
      DistinctIsExact(ids[1..], if id == "" || id in seen then seen else seen + {id});
      ListsOneMore(ids, seen, rest);
    }
  }

  lemma ListsOneMore(ids: seq<string>, seen: set<string>, rest: seq<string>)
    requires ids != []
    requires var id := Trim(ids[0]); ListsExactly(rest, ids[1..], if id == "" || id in seen then seen else seen + {id})
    ensures var id := Trim(ids[0]); ListsExactly(if id == "" || id in seen then rest else [id] + rest, ids, seen)
  {
    hide Trim, Mentions;
    var id := Trim(ids[0]);
    var out := if id == "" || id in seen then rest else [id] + rest;
    forall x
      ensures Mentions(ids, x) <==> id == x || Mentions(ids[1..], x)
    {
      MentionsTail(ids, x);
    }
    assert forall x :: x in out <==> x in rest || (x == id && id != "" && id !in seen);
  }

  function Excluded(incoming: string): set<string> {
    if Trim(incoming) == "" then {} else {Trim(incoming)}
  }

  /** When a subscription is adopted: the stored mandate and every one the invoices mention are
      cancelled, except the adopted one. */
  method MergePriorSubscriptionIDs(stored: string, incoming: string, invoiceIDs: seq<string>) returns (out: seq<string>)
    ensures out == Distinct([stored] + invoiceIDs, Excluded(incoming))
    ensures ListsExactly(out, [stored] + invoiceIDs, Excluded(incoming))
  {
    hide Distinct, ListsExactly, Trim;
    var seen := {};
    var id := Trim(incoming);
    if id != "" {
      seen := seen + {id};
    }
    assert seen == Excluded(incoming);
    ghost var all := Distinct([stored] + invoiceIDs, seen);
    out, seen := AddID([], seen, stored, invoiceIDs);
    var k := 0;
    assert invoiceIDs[k..] == invoiceIDs && [] + all == all;
    while k < |invoiceIDs|
      invariant 0 <= k <= |invoiceIDs|
      invariant all == out + Distinct(invoiceIDs[k..], seen)
    {
      assert invoiceIDs[k..] == [invoiceIDs[k]] + invoiceIDs[k + 1..];
      out, seen := AddID(out, seen, invoiceIDs[k], invoiceIDs[k + 1..]);
      k := k + 1;
    }
    assert invoiceIDs[k..] == [];
    NoneLeft(seen);
    assert out + [] == out;
    DistinctIsExact([stored] + invoiceIDs, Excluded(incoming));
  }

  lemma NoneLeft(seen: set<string>)
    ensures Distinct([], seen) == []
  {
  }

  method AddID(out: seq<string>, seen: set<string>, raw: string, ghost rest: seq<string>)
    returns (out': seq<string>, seen': set<string>)
    ensures out + Distinct([raw] + rest, seen) == out' + Distinct(rest, seen')
  {
    hide Trim;
    out', seen' := out, seen;
    assert ([raw] + rest)[1..] == rest;
    var id := Trim(raw);
    if id == "" || id in seen {
      return;
    }
    seen', out' := seen + {id}, out + [id];
    assert Distinct([raw] + rest, seen) == [id] + Distinct(rest, seen');
  }

  /* ----- The leftovers of a kept mandate ----- */

  datatype RankedRef = RankedRef(id: string, order: int, known: bool)

  /** The mentions of a plan that is known and strictly below the given rank. */
  function Below(refs: seq<RankedRef>, order: int): seq<string>
    decreases |refs|
  {
    if refs == [] then []
    else if refs[0].known && refs[0].order < order then [refs[0].id] + Below(refs[1..], order)
    else Below(refs[1..], order)
  }

  lemma {:induction false} BelowMentions(refs: seq<RankedRef>, order: int, id: string)
    ensures Mentions(Below(refs, order), id)
            <==> exists i :: 0 <= i < |refs| && refs[i].known && refs[i].order < order && Trim(refs[i].id) == id
    decreases |refs|
  {
    hide Trim, Mentions;
    if refs == [] {
      MentionsNothing(id);
    } else {
      BelowMentions(refs[1..], order, id);
      SomeRefTail(refs, order, id);
      if refs[0].known && refs[0].order < order {
        MentionsTail(Below(refs, order), id);
        assert Below(refs, order)[1..] == Below(refs[1..], order);
      }
    }
  }

  lemma MentionsNothing(id: string)
    ensures !Mentions([], id)
  {
  }

  lemma SomeRefTail(refs: seq<RankedRef>, order: int, id: string)
    requires refs != []
    ensures (exists i :: 0 <= i < |refs| && refs[i].known && refs[i].order < order && Trim(refs[i].id) == id)
            <==> (|| (refs[0].known && refs[0].order < order && Trim(refs[0].id) == id)
                  || exists i :: 0 <= i < |refs[1..]| && refs[1..][i].known && refs[1..][i].order < order && Trim(refs[1..][i].id) == id)
  {
    hide Trim;
    if i :| 0 < i < |refs| && refs[i].known && refs[i].order < order && Trim(refs[i].id) == id {
      assert refs[1..][i - 1] == refs[i];
    }
    if i :| 0 <= i < |refs[1..]| && refs[1..][i].known && refs[1..][i].order < order && Trim(refs[1..][i].id) == id {
      assert refs[i + 1] == refs[1..][i];
    }
  }

  function StaleIDs(incoming: string, currentOrder: int, currentKnown: bool, refs: seq<RankedRef>): seq<string> {
    if currentKnown then Distinct(Below(refs, currentOrder), Excluded(incoming)) else []
  }

  /** When a mandate is kept: exactly the mandates whose plan is known to be strictly below the
      current one are cancelled, each once, and never the kept one. An unknown current plan
      cancels nothing. */
  method StaleInvoiceIDs(incoming: string, currentOrder: int, currentKnown: bool, refs: seq<RankedRef>)
    returns (out: seq<string>)
    ensures out == StaleIDs(incoming, currentOrder, currentKnown, refs)
    ensures forall id :: id in out <==>
              && currentKnown && id != "" && id != Trim(incoming)
              && exists i :: 0 <= i < |refs| && refs[i].known && refs[i].order < currentOrder && Trim(refs[i].id) == id
    ensures forall i, j :: 0 <= i < j < |out| ==> out[i] != out[j]
  {
    if !currentKnown {
      return [];
    }
    hide Trim, Distinct, ListsExactly, Mentions, Below;
    ghost var below := Below(refs, currentOrder);
    ghost var all := Distinct(below, Excluded(incoming));
    var seen := {};
    var id := Trim(incoming);
    if id != "" {
      seen := seen + {id};
    }
    assert seen == Excluded(incoming);
    out := [];
    var k := 0;
    assert refs[k..] == refs && [] + all == all;
    while k < |refs|
      invariant 0 <= k <= |refs|
      invariant all == out + Distinct(Below(refs[k..], currentOrder), seen)
    {
      out, seen := AddRef(out, seen, refs, k, currentOrder);
      k := k + 1;
    }
    assert refs[k..] == [];
    NothingBelow(currentOrder, seen);
    assert out + [] == out;
    StaleExactly(incoming, currentOrder, refs);
  }

  lemma NothingBelow(order: int, seen: set<string>)
    ensures Distinct(Below([], order), seen) == []
  {
  }

  lemma StaleExactly(incoming: string, currentOrder: int, refs: seq<RankedRef>)
    ensures var out := Distinct(Below(refs, currentOrder), Excluded(incoming));
            && (forall id :: id in out <==>
                  && id != "" && id != Trim(incoming)
                  && exists i :: 0 <= i < |refs| && refs[i].known && refs[i].order < currentOrder && Trim(refs[i].id) == id)
            && (forall i, j :: 0 <= i < j < |out| ==> out[i] != out[j])
  {
    hide Trim, Distinct, Mentions, Below;
    var below := Below(refs, currentOrder);
    DistinctIsExact(below, Excluded(incoming));
    forall id
      ensures Mentions(below, id)
              <==> exists i :: 0 <= i < |refs| && refs[i].known && refs[i].order < currentOrder && Trim(refs[i].id) == id
    {
      BelowMentions(refs, currentOrder, id);
    }
  }

  method AddRef(out: seq<string>, seen: set<string>, refs: seq<RankedRef>, k: nat, order: int)
    returns (out': seq<string>, seen': set<string>)
    requires k < |refs|
    ensures out + Distinct(Below(refs[k..], order), seen) == out' + Distinct(Below(refs[k + 1..], order), seen')
  {
    hide Trim;
    out', seen' := out, seen;
    var ref := refs[k];
    var id := Trim(ref.id);
    assert refs[k..][1..] == refs[k + 1..];
    assert ([ref.id] + Below(refs[k + 1..], order))[1..] == Below(refs[k + 1..], order);
    if id == "" {
      return;
    }
    if id in seen {
      return;
    }
    if !ref.known || ref.order >= order {
      return;
    }
    seen', out' := seen + {id}, out + [id];
    assert Below(refs[k..], order) == [ref.id] + Below(refs[k + 1..], order);
  }
}
