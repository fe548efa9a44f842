/** Which mandates the provider is asked to cancel when a delivery breaks off and is repeated, and
    inputs for which that is the mandate just paid for. */
module Cancellations {
  import opened Text
  import opened Subscriptions
  import opened Deliveries
  import opened Redelivery
  import L = Ledger

  /** The organization's plan once the delivery's own plan is attached, if it pays. */
  function PlanAfter(plans: Catalogue, s: Shop, d: Delivery): string {
    if Pays(plans, s, d) && d.plan in plans then Attached(plans, Previous(s, d), d.plan) else Previous(s, d)
  }

  /** Even so, the organization is on a higher plan than the known one the delivery is for. */
  predicate Outranked(plans: Catalogue, s: Shop, d: Delivery) {
    var (order, known) := SortOrder(plans, d.plan);
    known && SortOrder(plans, PlanAfter(plans, s, d)).0 > order
  }

  /** With plan slugs stored as they are listed and no negative ranks, attaching makes no
      difference to that: the rank before the call decides. */
  lemma OutrankedBefore(plans: Catalogue, s: Shop, d: Delivery)
    requires Clean(d) && Trim(Previous(s, d)) == Previous(s, d) && forall p :: p in plans ==> plans[p].order >= 0
    ensures Outranked(plans, s, d) <==>
              SortOrder(plans, d.plan).1 && SortOrder(plans, Previous(s, d)).0 > SortOrder(plans, d.plan).0
  {
    hide Pays;
  }

  lemma PlanIsAfter(plans: Catalogue, s: Shop, d: Delivery, cur: Shop)
    requires Paid(plans, s, d).Some? && cur.planOf == Paid(plans, s, d).value.planOf
    ensures Previous(cur, d) == PlanAfter(plans, s, d)
  {
    if Pays(plans, s, d) {
      PaidShape(plans, s, d, Paid(plans, s, d).value);
    }
    hide GateOf, Granted, Attach;
  }

  /** What the redelivery of an adopted subscription has cancelled. */
  function AdoptedAgain(plans: Catalogue, s: Shop, d: Delivery, cur: Shop): seq<string> {
    if Outranked(plans, s, d) then [d.subscription] else Leftovers(plans, cur, d, PlanAfter(plans, s, d))
  }

  lemma CancelsAfterStore(plans: Catalogue, s: Shop, d: Delivery, cur: Shop)
    requires Clean(d) && d.org != "" && d.subscription != ""
    requires Get(cur.mandateOf, d.org) == d.subscription && Previous(cur, d) == PlanAfter(plans, s, d)
    ensures Cancels(plans, cur, d) == AdoptedAgain(plans, s, d, cur)
  {
    AdoptedIsKeptExactly(plans, RefsOf(cur, d.org), d.subscription, d.plan, Previous(cur, d));
    hide Decision, Leftovers, SortOrder, PlanAfter;
  }

  lemma AdoptedParts(plans: Catalogue, s: Shop, d: Delivery)
    requires d.org != "" && d.subscription != "" && GateOf(plans, s, d) == Adopt && Outcome(plans, s, d).1
    ensures Paid(plans, s, d).Some?
    ensures var stored := Store(Paid(plans, s, d).value, d.org, d.subscription);
            stored.Some? && Outcome(plans, s, d).0 == stored.value
  {
    hide Paid, GateOf, Store, Granted;
  }

  /** Delivered again from a state in which the subscription has been adopted, whatever the invoices
      list by then. */
  lemma AgainFromAdopted(plans: Catalogue, s: Shop, d: Delivery, cur: Shop)
    requires Clean(d) && d.org != "" && d.subscription != "" && GateOf(plans, s, d) == Adopt
    requires Outcome(plans, s, d).1 && SameStored(cur, Outcome(plans, s, d).0)
    ensures Finish(plans, cur, d, Fresh)
            == (cur.(cancelled := cur.cancelled + AdoptedAgain(plans, s, d, cur)), Finished)
  {
    hide Finish, Outcome, Cancels, AdoptedAgain, GateOf, Paid, Store;
    AdoptedParts(plans, s, d);
    StoredShape(plans, s, d, cur);
    PlanIsAfter(plans, s, d, cur);
    AgainAfterStore(plans, s, d, cur);
    CancelsAfterStore(plans, s, d, cur);
    FinishIsOutcome(plans, cur, d);
    FinishCancelsAsGated(plans, cur, d);
  }

  /** The redelivery asks for the adopted subscription to be cancelled exactly if it is outranked;
      otherwise it cancels what keeping it leaves over, which it is never part of. */
  lemma OwnMandateExactly(plans: Catalogue, s: Shop, d: Delivery, cur: Shop)
    requires Clean(d) && d.subscription != ""
    ensures d.subscription in AdoptedAgain(plans, s, d, cur) <==> Outranked(plans, s, d)
  {
    var (order, known) := SortOrder(plans, HigherPlan(plans, d.plan, PlanAfter(plans, s, d)));
    DistinctIsExact(Below(Ranked(plans, RefsOf(cur, d.org)), order), Excluded(d.subscription));
    hide Outranked, PlanAfter, Below, Distinct, HigherPlan, SortOrder, Mentions;
  }

  /** A delivery that adopts its subscription and completes, or breaks off after storing it, and is
      delivered again, with the invoices listing anything by then: nothing is granted, attached or
      stored again, and the redelivery has exactly its own subscription cancelled if the incoming
      plan is known and the organization's is known to be higher, and otherwise exactly the
      leftovers of keeping it. */
  lemma AdoptedRedelivery(plans: Catalogue, s: Shop, d: Delivery, n: nat, refs: map<string, seq<Ref>>)
    requires Clean(d) && d.org != "" && d.subscription != "" && GateOf(plans, s, d) == Adopt
    requires var pc := Alone(plans, s, d, Fresh, n).1; pc.Replacing? || pc.Cancelling? || pc.Finished?
    ensures var cur := Alone(plans, s, d, Fresh, n).0.(refs := refs);
            && Finish(plans, cur, d, Fresh)
               == (cur.(cancelled := cur.cancelled + AdoptedAgain(plans, s, d, cur)), Finished)
            && (d.subscription in AdoptedAgain(plans, s, d, cur) <==> Outranked(plans, s, d))
  {
    hide Alone, Finish, Outcome, AdoptedAgain, GateOf, Outranked;
    AloneKeepsStage(plans, s, d, s, Fresh, n);
    var cur := Alone(plans, s, d, Fresh, n).0.(refs := refs);
    AgainFromAdopted(plans, s, d, cur);
    OwnMandateExactly(plans, s, d, cur);
  }

  /** The same for a duplicate of a delivery that completed. */
  lemma AdoptedDuplicate(plans: Catalogue, s: Shop, d: Delivery, refs: map<string, seq<Ref>>)
    requires Clean(d) && d.org != "" && d.subscription != "" && GateOf(plans, s, d) == Adopt
    requires Finish(plans, s, d, Fresh).1.Finished?
    ensures var cur := Finish(plans, s, d, Fresh).0.(refs := refs);
            && Finish(plans, cur, d, Fresh)
               == (cur.(cancelled := cur.cancelled + AdoptedAgain(plans, s, d, cur)), Finished)
            && (d.subscription in AdoptedAgain(plans, s, d, cur) <==> Outranked(plans, s, d))
  {
    hide Finish, Outcome, AdoptedAgain, GateOf, Outranked;
    FinishIsOutcome(plans, s, d);
    var cur := Finish(plans, s, d, Fresh).0.(refs := refs);
    AgainFromAdopted(plans, s, d, cur);
    OwnMandateExactly(plans, s, d, cur);
  }

  /* ----- Every redelivery ----- */

  /** The delivery got as far as attaching its plan. */
  predicate PlanStored(pc: Pc) {
    BetweenPlanAndMandate(pc) || Phase(pc) <= 2
  }

  /** What the redelivery of a delivery that broke off at a given statement cancels, in terms of the
      state before the first attempt. */
  function SecondCancels(plans: Catalogue, s: Shop, d: Delivery, pc: Pc): seq<string> {
    if d.org == "" || d.subscription == "" then []
    else
      match GateOf(plans, s, d)
      case Stale => [d.subscription]
      case Defer => []
      case Keep => Leftovers(plans, s, d, if PlanStored(pc) then PlanAfter(plans, s, d) else Previous(s, d))
      case Adopt =>
        if Phase(pc) <= 2 then AdoptedAgain(plans, s, d, s)
        else if BetweenPlanAndMandate(pc) && Flips(plans, s, d) then [d.subscription]
        else Priors(s, d, MandateOf(s, d))
  }

  lemma CancelsOfAgreeing(plans: Catalogue, a: Shop, b: Shop, d: Delivery)
    requires Agree(a, b)
    ensures Cancels(plans, a, d) == Cancels(plans, b, d)
  {
    GateOfAgreeing(plans, a, b, d);
    hide GateOf, Distinct, StaleIDs, HigherPlan, SortOrder, Trim;
  }

  lemma CancelsAfterGrant(plans: Catalogue, s: Shop, d: Delivery, cur: Shop)
    requires Granted(s, d).Some? && Agree(cur, Granted(s, d).value)
    ensures Cancels(plans, cur, d) == Cancels(plans, s, d)
  {
    GrantKeepsGate(plans, s, d, cur);
    GrantKeepsRefs(s, d);
    hide GateOf, Distinct, StaleIDs, HigherPlan, SortOrder, Trim, Granted;
  }

  lemma GrantKeepsRefs(s: Shop, d: Delivery)
    ensures Granted(s, d).Some? ==> Granted(s, d).value.refs == s.refs
  {
    hide L.GrantTx;
  }

  /** From the plan on, as long as the mandate is not stored. */
  lemma CancelsAfterAttach(plans: Catalogue, s: Shop, d: Delivery, cur: Shop)
    requires Clean(d) && d.org != "" && d.subscription != ""
    requires Paid(plans, s, d).Some? && Agree(cur, Paid(plans, s, d).value)
    ensures Cancels(plans, cur, d)
            == match GateOf(plans, s, d)
               case Stale => [d.subscription]
               case Defer => []
               case Keep => Leftovers(plans, s, d, PlanAfter(plans, s, d))
               case Adopt => if Flips(plans, s, d) then [d.subscription] else Priors(s, d, MandateOf(s, d))
  {
    PlanIsAfter(plans, s, d, cur);
    PaidKeepsMandates(plans, s, d);
    GateOnceAttached(plans, s, d, cur);
    hide GateOf, Flips, Paid, PlanAfter, Distinct, StaleIDs, HigherPlan, SortOrder, Trim;
  }

  lemma GateOnceAttached(plans: Catalogue, s: Shop, d: Delivery, cur: Shop)
    requires Clean(d) && d.org != "" && Paid(plans, s, d).Some? && Agree(cur, Paid(plans, s, d).value)
    ensures GateOf(plans, cur, d) == if Flips(plans, s, d) then Stale else GateOf(plans, s, d)
    ensures Flips(plans, s, d) ==> GateOf(plans, s, d) == Adopt
  {
    if Pays(plans, s, d) {
      GateAfterAttach(plans, s, d, cur);
      if GateOf(plans, s, d) == Keep {
        KeepYields(plans, s, d);
      }
    } else {
      UnpaidIsUntouched(plans, s, d);
      GateOfAgreeing(plans, cur, s, d);
    }
    hide GateOf, Paid;
  }

  lemma CancelsOnceKept(plans: Catalogue, s: Shop, d: Delivery, cur: Shop)
    requires Clean(d) && d.org != "" && d.subscription != "" && GateOf(plans, s, d) != Adopt
    requires Outcome(plans, s, d).1 && Agree(cur, Outcome(plans, s, d).0)
    ensures Cancels(plans, cur, d)
            == match GateOf(plans, s, d)
               case Stale => [d.subscription]
               case Defer => []
               case _ => Leftovers(plans, s, d, PlanAfter(plans, s, d))
  {
    CancelsAfterAttach(plans, s, d, cur);
    hide GateOf, Paid, Cancels, Leftovers, Agree, Granted;
  }

  lemma CancelsOnceAdopted(plans: Catalogue, s: Shop, d: Delivery, cur: Shop)
    requires Clean(d) && d.org != "" && d.subscription != "" && GateOf(plans, s, d) == Adopt
    requires Outcome(plans, s, d).1 && Agree(cur, Outcome(plans, s, d).0)
    ensures Cancels(plans, cur, d) == AdoptedAgain(plans, s, d, s)
  {
    AdoptedParts(plans, s, d);
    StoredShape(plans, s, d, cur);
    PlanIsAfter(plans, s, d, cur);
    CancelsAfterStore(plans, s, d, cur);
    OutcomeKeepsRefs(plans, s, d);
    hide GateOf, Paid, Cancels, StaleIDs, SortOrder, HigherPlan, Outcome, Store, Outranked, PlanAfter;
  }

  lemma OutcomeKeepsRefs(plans: Catalogue, s: Shop, d: Delivery)
    ensures Outcome(plans, s, d).0.refs == s.refs
  {
    PaidKeepsMandates(plans, s, d);
    GrantKeepsRefs(s, d);
    hide Paid, GateOf, Granted, Trim;
  }

  /** Up to the grant nothing is stored. */
  lemma NothingStoredYet(plans: Catalogue, s: Shop, d: Delivery, cur: Shop, pc: Pc)
    requires Stage(plans, s, d, cur, pc) && Phase(pc) >= 7
    ensures Agree(cur, s)
  {
    hide Outcome, Pays, Agree;
  }

  /** Wherever the first attempt stands, the second one's cancellations are known beforehand. */
  lemma SecondCancelsExactly(plans: Catalogue, s: Shop, d: Delivery, cur: Shop, pc: Pc)
    requires Clean(d) && Stage(plans, s, d, cur, pc) && !pc.Failed?
    ensures Cancels(plans, cur, d) == SecondCancels(plans, s, d, pc)
  {
    hide Stage, Cancels, SecondCancels;
    if d.org == "" || d.subscription == "" {
      NobodyToCancel(plans, s, d, cur, pc);
    } else if Phase(pc) >= 7 {
      NothingStoredYet(plans, s, d, cur, pc);
      CancelsOfAgreeing(plans, cur, s, d);
      SecondIsFirst(plans, s, d, pc);
    } else if pc.Attaching? {
      AttachingStage(plans, s, d, cur, pc);
      CancelsAfterGrant(plans, s, d, cur);
      SecondIsFirst(plans, s, d, pc);
    } else if BetweenPlanAndMandate(pc) {
      SecondInTheWindow(plans, s, d, cur, pc);
    } else {
      SecondOnceThrough(plans, s, d, cur, pc);
    }
  }

  lemma NobodyToCancel(plans: Catalogue, s: Shop, d: Delivery, cur: Shop, pc: Pc)
    requires d.org == "" || d.subscription == ""
    ensures Cancels(plans, cur, d) == [] && SecondCancels(plans, s, d, pc) == []
  {
  }

  lemma AttachingStage(plans: Catalogue, s: Shop, d: Delivery, cur: Shop, pc: Pc)
    requires Stage(plans, s, d, cur, pc) && pc.Attaching?
    ensures Granted(s, d).Some? && Agree(cur, Granted(s, d).value)
  {
  }

  lemma SecondIsFirst(plans: Catalogue, s: Shop, d: Delivery, pc: Pc)
    requires d.org != "" && d.subscription != "" && Phase(pc) >= 6
    ensures SecondCancels(plans, s, d, pc) == Cancels(plans, s, d)
  {
    hide GateOf, Leftovers, Priors, Flips, PlanAfter;
  }

  lemma SecondInTheWindow(plans: Catalogue, s: Shop, d: Delivery, cur: Shop, pc: Pc)
    requires Clean(d) && d.org != "" && d.subscription != ""
    requires Stage(plans, s, d, cur, pc) && BetweenPlanAndMandate(pc)
    ensures Cancels(plans, cur, d) == SecondCancels(plans, s, d, pc)
  {
    CancelsAfterAttach(plans, s, d, cur);
    hide GateOf, Leftovers, Priors, Flips, PlanAfter, Cancels, Paid, Outcome, Agree;
  }

  lemma SecondOnceThrough(plans: Catalogue, s: Shop, d: Delivery, cur: Shop, pc: Pc)
    requires Clean(d) && d.org != "" && d.subscription != ""
    requires Stage(plans, s, d, cur, pc) && Phase(pc) <= 2 && !pc.Failed?
    ensures Cancels(plans, cur, d) == SecondCancels(plans, s, d, pc)
  {
    if GateOf(plans, s, d) == Adopt {
      CancelsOnceAdopted(plans, s, d, cur);
    } else {
      CancelsOnceKept(plans, s, d, cur);
    }
    hide GateOf, Leftovers, Priors, Flips, PlanAfter, Cancels, Paid, Outcome, Agree, AdoptedAgain;
  }

  /** A repeated delivery succeeds if the first attempt would have. */
  lemma AgainSucceeds(plans: Catalogue, s: Shop, d: Delivery, cur: Shop, pc: Pc)
    requires Clean(d) && Stage(plans, s, d, cur, pc) && Outcome(plans, s, d).1
    ensures Outcome(plans, cur, d).1
  {
    hide Outcome, GateOf, Paid, Granted, Flips;
    if Phase(pc) >= 7 {
      NothingStoredYet(plans, s, d, cur, pc);
      OutcomeOfAgreeing(plans, cur, s, d);
    } else if pc.Attaching? {
      AgainAfterGrant(plans, s, d, cur);
    } else if BetweenPlanAndMandate(pc) {
      WindowSucceeds(plans, s, d, cur);
    } else {
      OutcomeSucceedsAgain(plans, s, d, cur);
    }
  }

  lemma WindowSucceeds(plans: Catalogue, s: Shop, d: Delivery, cur: Shop)
    requires Clean(d) && d.org != "" && Outcome(plans, s, d).1
    requires Paid(plans, s, d).Some? && Agree(cur, Paid(plans, s, d).value)
    ensures Outcome(plans, cur, d).1
  {
    if Pays(plans, s, d) {
      AgainAfterAttach(plans, s, d, cur);
    } else {
      UnpaidIsUntouched(plans, s, d);
      OutcomeOfAgreeing(plans, cur, s, d);
    }
    hide Outcome, Paid, Flips;
  }

  lemma OutcomeSucceedsAgain(plans: Catalogue, s: Shop, d: Delivery, cur: Shop)
    requires Clean(d) && Outcome(plans, s, d).1 && Agree(cur, Outcome(plans, s, d).0)
    ensures Outcome(plans, cur, d).1
  {
    if d.org != "" {
      if d.subscription != "" && GateOf(plans, s, d) == Adopt {
        AdoptedParts(plans, s, d);
        AgainAfterStore(plans, s, d, cur);
      } else {
        PaidOutcome(plans, s, d);
        WindowSucceeds(plans, s, d, cur);
      }
    }
    hide Outcome, Paid, GateOf, Store;
  }

  lemma PaidOutcome(plans: Catalogue, s: Shop, d: Delivery)
    requires d.org != "" && (d.subscription == "" || GateOf(plans, s, d) != Adopt) && Outcome(plans, s, d).1
    ensures Paid(plans, s, d).Some? && Outcome(plans, s, d).0 == Paid(plans, s, d).value
  {
    hide Paid, GateOf, Granted;
  }

  /** A delivery's statements only ever ask for more cancellations, and for none that its gate's
      decision does not name. */
  lemma {:induction false} CancelsInOrder(plans: Catalogue, s: Shop, d: Delivery, cur: Shop, pc: Pc, n: nat)
    requires Stage(plans, s, d, cur, pc) && CancelStage(plans, s, d, cur, pc) && s.cancelled <= cur.cancelled
    ensures var (s', pc') := Alone(plans, cur, d, pc, n); CancelStage(plans, s, d, s', pc') && s.cancelled <= s'.cancelled
    decreases n
  {
    hide Stage, Step, CancelStage;
    if n > 0 {
      var (s', pc') := Step(plans, cur, d, pc);
      StepKeepsStage(plans, s, d, cur, pc);
      StepKeepsCancelStage(plans, s, d, cur, pc);
      StepCancelsMore(plans, cur, d, pc);
      CancelsInOrder(plans, s, d, s', pc', n - 1);
    }
  }

  lemma StepCancelsMore(plans: Catalogue, s: Shop, d: Delivery, pc: Pc)
    ensures s.cancelled <= Step(plans, s, d, pc).0.cancelled
  {
    hide L.GrantTx, Weigh, MandateOf, Priors, Leftovers, LegacyKey, GrantParamsOf;
  }

  lemma CancelledSoFar(plans: Catalogue, s: Shop, d: Delivery, cur: Shop, pc: Pc)
    requires CancelStage(plans, s, d, cur, pc)
    ensures cur.cancelled <= s.cancelled + Cancels(plans, s, d)
  {
    hide Cancels, MandateOf, GateOf;
  }

  /** Beside what it stores: a delivery that would complete breaks off after any number of
      statements and is delivered again. The first attempt has cancelled a first part of what the
      whole delivery cancels, and the redelivery completes and cancels exactly what the state
      before and the place of the break determine. */
  lemma RedeliveryCancelsExactly(plans: Catalogue, s: Shop, d: Delivery, n: nat)
    requires Clean(d) && Finish(plans, s, d, Fresh).1.Finished?
    ensures var (cur, pc) := Alone(plans, s, d, Fresh, n);
            var (again, end) := Finish(plans, cur, d, Fresh);
            && s.cancelled <= cur.cancelled <= s.cancelled + Cancels(plans, s, d)
            && end.Finished?
            && again.cancelled == cur.cancelled + SecondCancels(plans, s, d, pc)
  {
    hide Finish, Alone, Outcome, Cancels, SecondCancels;
    FinishIsOutcome(plans, s, d);
    AloneKeepsStage(plans, s, d, s, Fresh, n);
    CancelsInOrder(plans, s, d, s, Fresh, n);
    var (cur, pc) := Alone(plans, s, d, Fresh, n);
    CancelledSoFar(plans, s, d, cur, pc);
    AgainSucceeds(plans, s, d, cur, pc);
    SecondCancelsExactly(plans, s, d, cur, pc);
    FinishIsOutcome(plans, cur, d);
    FinishCancelsAsGated(plans, cur, d);
  }

  /* ----- Inputs ----- */

  const PLANS: Catalogue := map["starter" := Plan(1, true), "builder" := Plan(2, true), "scale" := Plan(3, true)]

  const EMPTY_HANDED := L.Db(map["o" := L.Org(0, 0, 0)], map[], map[], map[])

  /** On Starter, by a mandate that no invoice shows yet. */
  const UPGRADING := Shop(EMPTY_HANDED, map["o" := "starter"], map["o" := "a"], map[], [])

  const UPGRADE := Delivery("o", "b", "builder", 100, "subscription.plan_changed", "2026-08")

  /** On Scale, while the stored mandate and its invoice are still Starter's. */
  const OVERTAKEN := Shop(EMPTY_HANDED, map["o" := "scale"], map["o" := "a"], map["o" := [Ref("a", "starter")]], [])

  const LATECOMER := Delivery("o", "b", "builder", 100, "subscription.active", "2026-08")

  lemma Spelled()
    ensures Trim("a") == "a" && Trim("b") == "b"
    ensures Trim("starter") == "starter" && Trim("builder") == "builder" && Trim("scale") == "scale"
  {
  }

  /** An upgrade that is lost: its delivery breaks off after six statements, its redelivery grants
      nothing more, leaves the old mandate stored and has the subscription cancelled that was just
      paid for, whereas the undisturbed delivery would have stored it. */
  lemma UpgradeCanBeLost()
    ensures var (cur, _) := Alone(PLANS, UPGRADING, UPGRADE, Fresh, 6);
            var again, whole := Finish(PLANS, cur, UPGRADE, Fresh).0, Finish(PLANS, UPGRADING, UPGRADE, Fresh).0;
            && Get(whole.mandateOf, "o") == "b"
            && Get(again.mandateOf, "o") == "a" && Get(again.planOf, "o") == "builder"
            && again.cancelled == ["b"]
            && !Agree(again, whole)
  {
    UpgradeFlips();
    hide Finish, Alone, Flips, GateOf, Paid, Outcome;
    SixStatements(PLANS, UPGRADING, UPGRADE);
    AloneKeepsStage(PLANS, UPGRADING, UPGRADE, UPGRADING, Fresh, 6);
    CancelsInOrder(PLANS, UPGRADING, UPGRADE, UPGRADING, Fresh, 6);
    var cur := Alone(PLANS, UPGRADING, UPGRADE, Fresh, 6).0;
    PaidShape(PLANS, UPGRADING, UPGRADE, cur);
    FlippedIsCancelled(PLANS, UPGRADING, UPGRADE, 6);
    FlippedLosesMandate(PLANS, UPGRADING, UPGRADE, cur);
    RedeliveryCompletesExactly(PLANS, UPGRADING, UPGRADE, 6);
    FinishIsOutcome(PLANS, UPGRADING, UPGRADE);
  }

  lemma UpgradeFlips()
    ensures Clean(UPGRADE) && Flips(PLANS, UPGRADING, UPGRADE)
    ensures Pays(PLANS, UPGRADING, UPGRADE) && Paid(PLANS, UPGRADING, UPGRADE).Some?
    ensures Attached(PLANS, Previous(UPGRADING, UPGRADE), "builder") == "builder"
  {
    Spelled();
    assert StoredOrder(PLANS, [], "a") == (0, false);
    assert GateOf(PLANS, UPGRADING, UPGRADE) == Adopt;
  }

  /** A subscription that is adopted below the organization's plan: its delivery completes, grants
      the credits, stores the mandate and cancels the old one; a duplicate of the same event then
      has the stored mandate cancelled. */
  lemma DuplicateCancelsAdopted()
    ensures var (first, end) := Finish(PLANS, OVERTAKEN, LATECOMER, Fresh);
            var (second, end') := Finish(PLANS, first, LATECOMER, Fresh);
            && end.Finished? && end'.Finished?
            && Get(first.mandateOf, "o") == "b" && Get(first.planOf, "o") == "scale"
            && first.db.orgs == map["o" := L.Org(100, 0, 100)]
            && first.cancelled == ["a"]
            && second == first.(cancelled := ["a", "b"])
  {
    LatecomerOutcome();
    hide Finish, Outcome, GateOf, Cancels, AdoptedAgain;
    FinishIsOutcome(PLANS, OVERTAKEN, LATECOMER);
    FinishCancelsAsGated(PLANS, OVERTAKEN, LATECOMER);
    var first := Finish(PLANS, OVERTAKEN, LATECOMER, Fresh).0;
    AdoptedDuplicate(PLANS, OVERTAKEN, LATECOMER, first.refs);
    assert first.(refs := first.refs) == first;
  }

  lemma LatecomerOutcome()
    ensures Clean(LATECOMER) && GateOf(PLANS, OVERTAKEN, LATECOMER) == Adopt
    ensures !Flips(PLANS, OVERTAKEN, LATECOMER)
    ensures var (s, ok) := Outcome(PLANS, OVERTAKEN, LATECOMER);
            && ok && Get(s.mandateOf, "o") == "b" && Get(s.planOf, "o") == "scale"
            && s.db.orgs == map["o" := L.Org(100, 0, 100)]
    ensures Cancels(PLANS, OVERTAKEN, LATECOMER) == ["a"]
    ensures forall cur :: AdoptedAgain(PLANS, OVERTAKEN, LATECOMER, cur) == ["b"]
  {
    Spelled();
    assert StoredOrder(PLANS, [Ref("a", "starter")], "a") == (1, true);
    assert GateOf(PLANS, OVERTAKEN, LATECOMER) == Adopt;
    LatecomerPriors();
  }

  lemma LatecomerPriors()
    ensures Priors(OVERTAKEN, LATECOMER, "a") == ["a"]
  {
    Spelled();
    assert ["a"] + Ids([Ref("a", "starter")]) == ["a", "a"];
    assert ["a", "a"][1..] == ["a"] && ["a"][1..] == [];
    assert Distinct([], {"b", "a"}) == [];
    assert {"b"} + {"a"} == {"b", "a"};
    assert Distinct(["a"], {"b", "a"}) == [];
    assert Distinct(["a", "a"], {"b"}) == ["a"] + Distinct(["a"], {"b", "a"});
  }
}
