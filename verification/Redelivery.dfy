/** A delivery on its own: what it amounts to, and what becomes of it when it breaks off between
    two statements and the event is delivered again. */
module Redelivery {
  import opened Wrappers
  import opened Text
  import opened Subscriptions
  import opened Deliveries
  import L = Ledger

  /** The first statements of a delivery that nothing interferes with. */
  function Alone(plans: Catalogue, s: Shop, d: Delivery, pc: Pc, n: nat): (Shop, Pc)
    decreases n
  {
    if n == 0 then (s, pc)
    else var (s', pc') := Step(plans, s, d, pc); Alone(plans, s', d, pc', n - 1)
  }

  function Phase(pc: Pc): nat {
    match pc
    case Fresh => 11
    case Gating(_) => 10
    case Weighing(_, _) => 9
    case Checking(_) => 8
    case Granting(_, _) => 7
    case Attaching(_) => 6
    case Persisting(_) => 5
    case Reweighing(_, _) => 4
    case Storing(_) => 3
    case Replacing(_) => 2
    case Keeping(_) => 2
    case Cancelling(_) => 1
    case _ => 0
  }

  function Remaining(pc: Pc): nat {
    if pc.Cancelling? then |pc.ids| else 0
  }

  lemma StepProgresses(plans: Catalogue, s: Shop, d: Delivery, pc: Pc)
    requires !Ends(pc)
    ensures var pc' := Step(plans, s, d, pc).1;
            Phase(pc') < Phase(pc) || (Phase(pc') == Phase(pc) && Remaining(pc') < Remaining(pc))
  {
    hide L.GrantTx, Weigh, MandateOf, Priors, Leftovers, LegacyKey, GrantParamsOf, Attach, Store;
  }

  /** All statements of a delivery that nothing interferes with. */
  function Finish(plans: Catalogue, s: Shop, d: Delivery, pc: Pc): (Shop, Pc)
    decreases Phase(pc), Remaining(pc)
  {
    if Ends(pc) then (s, pc)
    else
      StepProgresses(plans, s, d, pc);
      var (s', pc') := Step(plans, s, d, pc);
      Finish(plans, s', d, pc')
  }

  /* ----- What a delivery amounts to ----- */

  predicate Agree(a: Shop, b: Shop) {
    a.db == b.db && a.planOf == b.planOf && a.mandateOf == b.mandateOf && a.refs == b.refs
  }

  function Previous(s: Shop, d: Delivery): string {
    Get(s.planOf, d.org)
  }

  function GateOf(plans: Catalogue, s: Shop, d: Delivery): Action {
    Gate(plans, s, d, Previous(s, d))
  }

  /** The delivery is let through to a grant. */
  predicate Pays(plans: Catalogue, s: Shop, d: Delivery) {
    d.org != "" && GateOf(plans, s, d) in {Adopt, Keep} && d.credits > 0 && d.plan != ""
  }

  predicate LegacyIn(s: Shop, d: Delivery) {
    d.subscription != "" && LegacyKey(d.subscription, d.period) in s.db.ledger
  }

  function Granted(s: Shop, d: Delivery): Option<Shop> {
    match L.GrantTx(s.db, GrantParamsOf(d, Previous(s, d), LegacyIn(s, d)))
    case Committed(db, _) => Some(s.(db := db))
    case RolledBack(_) => None
  }

  /** Grant and plan, or nothing if the delivery does not pay. */
  function Paid(plans: Catalogue, s: Shop, d: Delivery): Option<Shop> {
    if !Pays(plans, s, d) then Some(s)
    else
      match Granted(s, d)
      case None => None
      case Some(s1) => Attach(plans, s1, d.org, d.plan)
  }

  /** Grant, plan and mandate after a whole delivery, and whether it succeeds. Only an adopted
      subscription becomes the mandate; stale and deferred ones change nothing. */
  function Outcome(plans: Catalogue, s: Shop, d: Delivery): (Shop, bool) {
    if d.org == "" then (s, true)
    else
      match Paid(plans, s, d)
      case None => (match Granted(s, d) case Some(s1) => (s1, false) case None => (s, false))
      case Some(s2) =>
        if d.subscription != "" && GateOf(plans, s, d) == Adopt then Adopted(s2, d) else (s2, true)
  }

  function Adopted(s: Shop, d: Delivery): (Shop, bool) {
    match Store(s, d.org, d.subscription)
    case Some(s') => (s', true)
    case None => (s, false)
  }

  /** Where a delivery stands: everything it has stored so far, in terms of where it began. */
  ghost predicate Stage(plans: Catalogue, s: Shop, d: Delivery, cur: Shop, pc: Pc) {
    var o := Outcome(plans, s, d);
    match pc
    case Fresh => Agree(cur, s)
    case Gating(p) => d.org != "" && p == Previous(s, d) && Agree(cur, s)
    case Weighing(p, stored) =>
      d.org != "" && d.subscription != "" && p == Previous(s, d) && stored == MandateOf(s, d) && Agree(cur, s)
    case Checking(p) => Pays(plans, s, d) && p == Previous(s, d) && Agree(cur, s)
    case Granting(p, l) => Pays(plans, s, d) && p == Previous(s, d) && l == LegacyIn(s, d) && Agree(cur, s)
    case Attaching(p) =>
      && Pays(plans, s, d) && p == Previous(s, d)
      && Granted(s, d).Some? && Agree(cur, Granted(s, d).value)
    case Persisting(p) =>
      && d.org != "" && p == Previous(s, d)
      && Paid(plans, s, d).Some? && Agree(cur, Paid(plans, s, d).value)
    case Reweighing(p, stored) =>
      && d.org != "" && d.subscription != "" && p == Previous(s, d) && stored == MandateOf(s, d)
      && Paid(plans, s, d).Some? && Agree(cur, Paid(plans, s, d).value)
    case Storing(stored) =>
      && d.org != "" && d.subscription != "" && GateOf(plans, s, d) == Adopt
      && Paid(plans, s, d).Some? && Agree(cur, Paid(plans, s, d).value)
    case Failed => !o.1 && Agree(cur, o.0)
    case _ => o.1 && Agree(cur, o.0)
  }

  /** The second decision, after grant and plan, is the first one over again. */
  lemma ActsAsGated(plans: Catalogue, s: Shop, d: Delivery, cur: Shop)
    requires Paid(plans, s, d).Some? && Agree(cur, Paid(plans, s, d).value) && d.subscription != ""
    ensures DecisionOf(plans, cur, d, Previous(s, d)) == GateOf(plans, s, d)
  {
    hide Decision, L.GrantTx;
  }

  lemma GrantStage(plans: Catalogue, s: Shop, d: Delivery, cur: Shop, pc: Pc)
    requires (pc.Granting? || pc.Checking? || pc.Gating? || pc.Weighing? || pc.Fresh?) && Stage(plans, s, d, cur, pc)
    ensures Stage(plans, s, d, Step(plans, cur, d, pc).0, Step(plans, cur, d, pc).1)
  {
    hide Decision, L.GrantTx, Attach, Store, SubscriptionGrantKey, LegacyKey, Priors, Leftovers;
  }

  lemma AttachStage(plans: Catalogue, s: Shop, d: Delivery, cur: Shop, pc: Pc)
    requires pc.Attaching? && Stage(plans, s, d, cur, pc)
    ensures Stage(plans, s, d, Step(plans, cur, d, pc).0, Step(plans, cur, d, pc).1)
  {
    hide Gate, Granted, Store, Priors, Leftovers;
  }

  lemma PersistStage(plans: Catalogue, s: Shop, d: Delivery, cur: Shop, pc: Pc)
    requires pc.Persisting? && Stage(plans, s, d, cur, pc)
    ensures Stage(plans, s, d, Step(plans, cur, d, pc).0, Step(plans, cur, d, pc).1)
  {
    PaidKeepsMandates(plans, s, d);
    hide Weigh, GateOf, Granted, Paid, Adopted, Attach, Store, Priors, Leftovers, Trim, Get, LegacyIn, Pays;
  }

  lemma ReweighStage(plans: Catalogue, s: Shop, d: Delivery, cur: Shop, pc: Pc)
    requires pc.Reweighing? && Stage(plans, s, d, cur, pc)
    ensures Stage(plans, s, d, Step(plans, cur, d, pc).0, Step(plans, cur, d, pc).1)
  {
    ActsAsGated(plans, s, d, cur);
    PaidKeepsMandates(plans, s, d);
    assert Weigh(plans, cur, d, pc.previous, pc.stored) == GateOf(plans, s, d);
    hide Weigh, GateOf, Granted, Paid, Adopted, Attach, Store, Priors, Leftovers, Agree, Trim, Get, LegacyIn, Pays;
  }

  lemma PaidKeepsMandates(plans: Catalogue, s: Shop, d: Delivery)
    ensures Paid(plans, s, d).Some? ==>
              Paid(plans, s, d).value.mandateOf == s.mandateOf && Paid(plans, s, d).value.refs == s.refs
  {
    hide GateOf, L.GrantTx, Rank;
  }

  lemma LaterStage(plans: Catalogue, s: Shop, d: Delivery, cur: Shop, pc: Pc)
    requires (pc.Storing? || Phase(pc) <= 2) && Stage(plans, s, d, cur, pc)
    ensures Stage(plans, s, d, Step(plans, cur, d, pc).0, Step(plans, cur, d, pc).1)
  {
    hide Weigh, Gate, Granted, Paid, Attach, Priors, Leftovers;
  }

  lemma StepKeepsStage(plans: Catalogue, s: Shop, d: Delivery, cur: Shop, pc: Pc)
    requires Stage(plans, s, d, cur, pc)
    ensures Stage(plans, s, d, Step(plans, cur, d, pc).0, Step(plans, cur, d, pc).1)
  {
    hide Stage, Step;
    match pc
    case Attaching(_) => AttachStage(plans, s, d, cur, pc);
    case Persisting(_) => PersistStage(plans, s, d, cur, pc);
    case Reweighing(_, _) => ReweighStage(plans, s, d, cur, pc);
    case Fresh => GrantStage(plans, s, d, cur, pc);
    case Gating(_) => GrantStage(plans, s, d, cur, pc);
    case Weighing(_, _) => GrantStage(plans, s, d, cur, pc);
    case Checking(_) => GrantStage(plans, s, d, cur, pc);
    case Granting(_, _) => GrantStage(plans, s, d, cur, pc);
    case _ => LaterStage(plans, s, d, cur, pc);
  }

  lemma {:induction false} AloneKeepsStage(plans: Catalogue, s: Shop, d: Delivery, cur: Shop, pc: Pc, n: nat)
    requires Stage(plans, s, d, cur, pc)
    ensures var (s', pc') := Alone(plans, cur, d, pc, n); Stage(plans, s, d, s', pc')
    decreases n
  {
    hide Stage, Step;
    if n > 0 {
      StepKeepsStage(plans, s, d, cur, pc);
      var (s', pc') := Step(plans, cur, d, pc);
      AloneKeepsStage(plans, s, d, s', pc', n - 1);
    }
  }

  lemma {:induction false} FinishKeepsStage(plans: Catalogue, s: Shop, d: Delivery, cur: Shop, pc: Pc)
    requires Stage(plans, s, d, cur, pc)
    ensures var (s', pc') := Finish(plans, cur, d, pc); Ends(pc') && Stage(plans, s, d, s', pc')
    decreases Phase(pc), Remaining(pc)
  {
    hide Stage, Step, Phase, Remaining;
    if !Ends(pc) {
      StepKeepsStage(plans, s, d, cur, pc);
      StepProgresses(plans, cur, d, pc);
      var (s', pc') := Step(plans, cur, d, pc);
      FinishKeepsStage(plans, s, d, s', pc');
    }
  }

  /** Statement by statement, an undisturbed delivery amounts to its outcome. */
  lemma FinishIsOutcome(plans: Catalogue, s: Shop, d: Delivery)
    ensures var (s', pc') := Finish(plans, s, d, Fresh);
            Agree(s', Outcome(plans, s, d).0) && (pc' == if Outcome(plans, s, d).1 then Finished else Failed)
  {
    hide Finish, Outcome;
    FinishKeepsStage(plans, s, d, s, Fresh);
  }

  /* ----- Delivering again ----- */

  predicate Clean(d: Delivery) {
    Trim(d.subscription) == d.subscription && Trim(d.plan) == d.plan
  }

  /** Two optional states that agree. */
  predicate BothAgree(a: Option<Shop>, b: Option<Shop>) {
    (a.Some? <==> b.Some?) && (a.Some? ==> Agree(a.value, b.value))
  }

  lemma AttachOfAgreeing(plans: Catalogue, a: Shop, b: Shop, d: Delivery)
    requires Agree(a, b)
    ensures BothAgree(Attach(plans, a, d.org, d.plan), Attach(plans, b, d.org, d.plan))
  {
    hide Rank;
  }

  lemma GrantedOfAgreeing(a: Shop, b: Shop, d: Delivery)
    requires Agree(a, b)
    ensures BothAgree(Granted(a, d), Granted(b, d))
  {
    hide SubscriptionGrantKey, LegacyKey, L.GrantTx;
  }

  lemma AdoptedOfAgreeing(a: Shop, b: Shop, d: Delivery)
    requires Agree(a, b)
    ensures Agree(Adopted(a, d).0, Adopted(b, d).0) && Adopted(a, d).1 == Adopted(b, d).1
  {
    hide Trim;
  }

  lemma GateOfAgreeing(plans: Catalogue, a: Shop, b: Shop, d: Delivery)
    requires Agree(a, b)
    ensures GateOf(plans, a, d) == GateOf(plans, b, d)
  {
    hide Decision;
  }

  lemma PaidOfAgreeing(plans: Catalogue, a: Shop, b: Shop, d: Delivery)
    requires Agree(a, b)
    ensures BothAgree(Paid(plans, a, d), Paid(plans, b, d))
  {
    GateOfAgreeing(plans, a, b, d);
    GrantedOfAgreeing(a, b, d);
    if Granted(a, d).Some? && Granted(b, d).Some? {
      AttachOfAgreeing(plans, Granted(a, d).value, Granted(b, d).value, d);
    }
    hide GateOf, Granted, Attach, Agree;
  }

  lemma OutcomeOfAgreeing(plans: Catalogue, a: Shop, b: Shop, d: Delivery)
    requires Agree(a, b)
    ensures Agree(Outcome(plans, a, d).0, Outcome(plans, b, d).0) && Outcome(plans, a, d).1 == Outcome(plans, b, d).1
  {
    GateOfAgreeing(plans, a, b, d);
    PaidOfAgreeing(plans, a, b, d);
    GrantedOfAgreeing(a, b, d);
    hide GateOf, Granted, Agree, Adopted, Paid;
    match Paid(plans, a, d)
    case None =>
    case Some(a2) => AdoptedOfAgreeing(a2, Paid(plans, b, d).value, d);
  }

  /** The grant's row is there: granting again inserts nothing. */
  predicate RowIn(s: Shop, d: Delivery) {
    GrantParamsOf(d, Previous(s, d), LegacyIn(s, d)).key in s.db.ledger
  }

  lemma GrantIsIdempotent(s: Shop, d: Delivery)
    requires RowIn(s, d) && d.credits > 0
    ensures Granted(s, d) == Some(s)
  {
  }

  lemma RowAfterGrant(plans: Catalogue, s: Shop, d: Delivery, cur: Shop)
    requires Granted(s, d).Some? && cur.db == Granted(s, d).value.db
    requires Previous(cur, d) == Previous(s, d) || (d.plan in plans && Previous(cur, d) == Attached(plans, Previous(s, d), d.plan))
    ensures RowIn(cur, d)
  {
    hide LegacyKey, PlanKey;
  }

  lemma AgainAfterGrant(plans: Catalogue, s: Shop, d: Delivery, cur: Shop)
    requires Pays(plans, s, d) && Granted(s, d).Some? && Agree(cur, Granted(s, d).value)
    ensures Agree(Outcome(plans, cur, d).0, Outcome(plans, s, d).0) && Outcome(plans, cur, d).1 == Outcome(plans, s, d).1
  {
    RowAfterGrant(plans, s, d, cur);
    GrantIsIdempotent(cur, d);
    GrantKeepsGate(plans, s, d, cur);
    AttachOfAgreeing(plans, cur, Granted(s, d).value, d);
    hide Granted, RowIn, GateOf, Attach, Adopted, Agree;
    match Paid(plans, s, d)
    case None =>
    case Some(s2) => AdoptedOfAgreeing(Paid(plans, cur, d).value, s2, d);
  }

  lemma GrantKeepsGate(plans: Catalogue, s: Shop, d: Delivery, cur: Shop)
    requires Granted(s, d).Some? && Agree(cur, Granted(s, d).value)
    ensures Previous(cur, d) == Previous(s, d) && GateOf(plans, cur, d) == GateOf(plans, s, d)
    ensures cur.planOf == s.planOf && cur.mandateOf == s.mandateOf
  {
    hide Decision, L.GrantTx;
  }

  /** The decision is not the same once the plan is attached. */
  predicate Flips(plans: Catalogue, s: Shop, d: Delivery) {
    && Pays(plans, s, d) && d.subscription != "" && d.plan in plans && plans[d.plan].active
    && Attached(plans, Previous(s, d), d.plan) != Previous(s, d)
    && !Yields(plans, RefsOf(s, d.org), MandateOf(s, d), d.subscription, d.plan)
  }

  lemma PaidShape(plans: Catalogue, s: Shop, d: Delivery, cur: Shop)
    requires Pays(plans, s, d) && Paid(plans, s, d).Some? && Agree(cur, Paid(plans, s, d).value)
    ensures Granted(s, d).Some? && d.plan in plans && d.org in cur.db.orgs
    ensures cur.db == Granted(s, d).value.db && cur.mandateOf == s.mandateOf && cur.refs == s.refs
    ensures Previous(cur, d) == Attached(plans, Previous(s, d), d.plan)
  {
    hide GateOf, L.GrantTx, SubscriptionGrantKey, LegacyIn;
  }

  lemma GateAfterAttach(plans: Catalogue, s: Shop, d: Delivery, cur: Shop)
    requires Clean(d) && Pays(plans, s, d) && Paid(plans, s, d).Some? && Agree(cur, Paid(plans, s, d).value)
    ensures Previous(cur, d) == Attached(plans, Previous(s, d), d.plan)
    ensures GateOf(plans, cur, d) == if Flips(plans, s, d) then Stale else GateOf(plans, s, d)
  {
    PaidShape(plans, s, d, cur);
    if d.subscription != "" {
      RetryIsStableExactly(plans, RefsOf(s, d.org), MandateOf(s, d), d.subscription, d.plan, Previous(s, d));
    }
    hide Decision, Attached, Paid, Yields, Agree, Granted;
  }

  lemma AttachIsIdempotent(plans: Catalogue, s: Shop, d: Delivery, cur: Shop)
    requires d.plan in plans && d.plan != "" && d.org in cur.db.orgs
    requires Previous(cur, d) == Attached(plans, Previous(s, d), d.plan)
    ensures Attach(plans, cur, d.org, d.plan) == Some(cur)
  {
    assert d.org in cur.planOf ==> cur.planOf[d.org := Previous(cur, d)] == cur.planOf;
  }

  lemma AgainAfterAttach(plans: Catalogue, s: Shop, d: Delivery, cur: Shop)
    requires Clean(d) && Pays(plans, s, d) && Paid(plans, s, d).Some? && Agree(cur, Paid(plans, s, d).value)
    ensures Flips(plans, s, d) ==> Outcome(plans, cur, d) == (cur, true)
    ensures !Flips(plans, s, d) ==>
              Agree(Outcome(plans, cur, d).0, Outcome(plans, s, d).0) && Outcome(plans, cur, d).1 == Outcome(plans, s, d).1
  {
    PaidShape(plans, s, d, cur);
    GateAfterAttach(plans, s, d, cur);
    RowAfterGrant(plans, s, d, cur);
    GrantIsIdempotent(cur, d);
    AttachIsIdempotent(plans, s, d, cur);
    hide Granted, RowIn, GateOf, Attach, Flips;
  }

  /** After an adopted subscription was stored the gate says keep or stale. */
  lemma GateAfterStore(plans: Catalogue, s: Shop, d: Delivery)
    requires Trim(d.subscription) == d.subscription != ""
    requires Get(s.mandateOf, d.org) == d.subscription
    ensures GateOf(plans, s, d) in {Keep, Stale}
  {
    AdoptedIsKeptExactly(plans, RefsOf(s, d.org), d.subscription, d.plan, Previous(s, d));
  }

  lemma NothingMoreToDo(plans: Catalogue, cur: Shop, d: Delivery)
    requires Pays(plans, cur, d) ==> Granted(cur, d) == Some(cur) && Attach(plans, cur, d.org, d.plan) == Some(cur)
    requires d.subscription == "" || GateOf(plans, cur, d) != Adopt
    ensures Outcome(plans, cur, d) == (cur, true)
  {
    hide Granted, GateOf, Attach;
  }

  /** The same credits, plans and mandates, whatever the invoices list. */
  predicate SameStored(a: Shop, b: Shop) {
    a.db == b.db && a.planOf == b.planOf && a.mandateOf == b.mandateOf
  }

  lemma AgainAfterStore(plans: Catalogue, s: Shop, d: Delivery, cur: Shop)
    requires Clean(d) && d.org != "" && d.subscription != "" && GateOf(plans, s, d) == Adopt
    requires Paid(plans, s, d).Some? && Store(Paid(plans, s, d).value, d.org, d.subscription).Some?
    requires SameStored(cur, Store(Paid(plans, s, d).value, d.org, d.subscription).value)
    ensures Outcome(plans, cur, d) == (cur, true)
  {
    StoredShape(plans, s, d, cur);
    GateAfterStore(plans, cur, d);
    if Pays(plans, cur, d) {
      PaidShape(plans, s, d, Paid(plans, s, d).value);
      RowAfterGrant(plans, s, d, cur);
      GrantIsIdempotent(cur, d);
      AttachIsIdempotent(plans, s, d, cur);
    }
    hide Granted, Attach, GateOf;
    NothingMoreToDo(plans, cur, d);
  }

  lemma StoredShape(plans: Catalogue, s: Shop, d: Delivery, cur: Shop)
    requires Clean(d) && d.subscription != "" && Paid(plans, s, d).Some?
    requires Store(Paid(plans, s, d).value, d.org, d.subscription).Some?
    requires SameStored(cur, Store(Paid(plans, s, d).value, d.org, d.subscription).value)
    ensures Get(cur.mandateOf, d.org) == d.subscription
    ensures var s2 := Paid(plans, s, d).value; cur.db == s2.db && cur.planOf == s2.planOf
  {
    hide Paid;
  }

  lemma KeepYields(plans: Catalogue, s: Shop, d: Delivery)
    requires GateOf(plans, s, d) == Keep
    ensures !Flips(plans, s, d)
  {
    hide StoredOrder, Attached, SortOrder;
  }

  /** Once a delivery is through, its redelivery changes nothing any more. */
  lemma AgainAfterOutcome(plans: Catalogue, s: Shop, d: Delivery, cur: Shop)
    requires Clean(d) && Agree(cur, Outcome(plans, s, d).0)
    ensures Agree(Outcome(plans, cur, d).0, Outcome(plans, s, d).0)
  {
    if d.org != "" {
      match Paid(plans, s, d)
      case None => AgainAfterRefusal(plans, s, d, cur);
      case Some(s2) =>
        if d.subscription != "" && GateOf(plans, s, d) == Adopt {
          AgainAfterAdopt(plans, s, d, cur);
        } else {
          AgainAfterRest(plans, s, d, cur);
        }
    }
  }

  lemma AgainAfterRefusal(plans: Catalogue, s: Shop, d: Delivery, cur: Shop)
    requires d.org != "" && Paid(plans, s, d).None? && Agree(cur, Outcome(plans, s, d).0)
    ensures Agree(Outcome(plans, cur, d).0, Outcome(plans, s, d).0)
  {
    hide Granted, GateOf, Attach;
    if Granted(s, d).Some? {
      AgainAfterGrant(plans, s, d, cur);
    } else {
      OutcomeOfAgreeing(plans, cur, s, d);
    }
  }

  lemma AgainAfterAdopt(plans: Catalogue, s: Shop, d: Delivery, cur: Shop)
    requires Clean(d) && d.org != "" && d.subscription != "" && GateOf(plans, s, d) == Adopt
    requires Paid(plans, s, d).Some? && Agree(cur, Outcome(plans, s, d).0)
    ensures Agree(Outcome(plans, cur, d).0, Outcome(plans, s, d).0)
  {
    var s2 := Paid(plans, s, d).value;
    if Store(s2, d.org, d.subscription).Some? {
      AgainAfterStore(plans, s, d, cur);
    } else {
      UnpaidIsUntouched(plans, s, d);
      hide Paid, GateOf, Store;
      OutcomeOfAgreeing(plans, cur, s, d);
    }
  }

  lemma UnpaidIsUntouched(plans: Catalogue, s: Shop, d: Delivery)
    requires Paid(plans, s, d).Some?
    ensures Pays(plans, s, d) ==> d.org in Paid(plans, s, d).value.db.orgs
    ensures !Pays(plans, s, d) ==> Paid(plans, s, d).value == s
  {
    hide GateOf;
    if Pays(plans, s, d) {
      PaidShape(plans, s, d, Paid(plans, s, d).value);
    }
  }

  lemma AgainAfterRest(plans: Catalogue, s: Shop, d: Delivery, cur: Shop)
    requires Clean(d) && d.org != "" && (d.subscription == "" || GateOf(plans, s, d) != Adopt)
    requires Paid(plans, s, d).Some? && Agree(cur, Outcome(plans, s, d).0)
    ensures Agree(Outcome(plans, cur, d).0, Outcome(plans, s, d).0)
  {
    UnpaidIsUntouched(plans, s, d);
    if Pays(plans, s, d) {
      if d.subscription != "" {
        KeepYields(plans, s, d);
      }
      AgainAfterAttach(plans, s, d, cur);
    } else {
      OutcomeOfAgreeing(plans, cur, s, d);
    }
  }

  /** The delivery broke off after its plan was attached and before its mandate was stored. */
  predicate BetweenPlanAndMandate(pc: Pc) {
    pc.Persisting? || pc.Reweighing? || pc.Storing?
  }

  lemma AgainAfterStage(plans: Catalogue, s: Shop, d: Delivery, cur: Shop, pc: Pc)
    requires Clean(d) && Stage(plans, s, d, cur, pc)
    ensures Agree(Outcome(plans, cur, d).0, Outcome(plans, s, d).0) <==> !(Flips(plans, s, d) && BetweenPlanAndMandate(pc))
  {
    hide Granted, GateOf, Attach, Outcome, Flips, Paid;
    match pc
    case Attaching(_) => AgainAfterGrant(plans, s, d, cur);
    case Persisting(_) => AgainInTheWindow(plans, s, d, cur);
    case Reweighing(_, _) => AgainInTheWindow(plans, s, d, cur);
    case Storing(_) => AgainInTheWindow(plans, s, d, cur);
    case Fresh => OutcomeOfAgreeing(plans, cur, s, d);
    case Gating(_) => OutcomeOfAgreeing(plans, cur, s, d);
    case Weighing(_, _) => OutcomeOfAgreeing(plans, cur, s, d);
    case Checking(_) => OutcomeOfAgreeing(plans, cur, s, d);
    case Granting(_, _) => OutcomeOfAgreeing(plans, cur, s, d);
    case _ => AgainAfterOutcome(plans, s, d, cur);
  }

  lemma AgainInTheWindow(plans: Catalogue, s: Shop, d: Delivery, cur: Shop)
    requires Clean(d) && d.org != "" && Paid(plans, s, d).Some? && Agree(cur, Paid(plans, s, d).value)
    ensures Agree(Outcome(plans, cur, d).0, Outcome(plans, s, d).0) <==> !Flips(plans, s, d)
  {
    if Pays(plans, s, d) {
      AgainAfterAttach(plans, s, d, cur);
      if Flips(plans, s, d) {
        FlippedLosesMandate(plans, s, d, cur);
      }
    } else {
      OutcomeOfAgreeing(plans, cur, s, d);
    }
    hide Outcome, Paid;
  }

  lemma FlippedLosesMandate(plans: Catalogue, s: Shop, d: Delivery, cur: Shop)
    requires Clean(d) && Flips(plans, s, d) && Paid(plans, s, d).Some? && Agree(cur, Paid(plans, s, d).value)
    ensures Get(Outcome(plans, s, d).0.mandateOf, d.org) == d.subscription != Get(cur.mandateOf, d.org)
  {
    PaidShape(plans, s, d, cur);
    if GateOf(plans, s, d) == Keep {
      KeepYields(plans, s, d);
    }
    hide GateOf, Paid, Granted, StoredOrder, SortOrder, Attached;
  }

  /** A delivery that breaks off after any number of statements and is then delivered again leaves
      the same credits, plan and mandate as if it had not broken off, with exactly one exception:
      an upgrade that breaks off between plan and mandate while the stored mandate is another one,
      not known from the invoices to be on a lower plan. */
  lemma RedeliveryCompletesExactly(plans: Catalogue, s: Shop, d: Delivery, n: nat)
    requires Clean(d)
    ensures var (cur, pc) := Alone(plans, s, d, Fresh, n);
            Agree(Finish(plans, cur, d, Fresh).0, Finish(plans, s, d, Fresh).0)
            <==> !(Flips(plans, s, d) && BetweenPlanAndMandate(pc))
  {
    hide Finish, Alone, Outcome, Flips;
    AloneKeepsStage(plans, s, d, s, Fresh, n);
    var (cur, pc) := Alone(plans, s, d, Fresh, n);
    hide Stage;
    AgainAfterStage(plans, s, d, cur, pc);
    FinishIsOutcome(plans, cur, d);
    FinishIsOutcome(plans, s, d);
  }

  /** A delivery judged stale changes nothing but asks for its own subscription to be cancelled. */
  lemma StaleIsCancelled(plans: Catalogue, s: Shop, d: Delivery)
    requires d.org != "" && d.subscription != "" && GateOf(plans, s, d) == Stale
    ensures Finish(plans, s, d, Fresh) == (s.(cancelled := s.cancelled + [d.subscription]), Finished)
  {
    hide Decision, Priors, Leftovers, LegacyKey, GrantParamsOf, L.GrantTx, Trim;
    var p := Previous(s, d);
    var s' := s.(cancelled := s.cancelled + [d.subscription]);
    assert Finish(plans, s', d, Cancelling([])) == (s', Finished);
    assert Finish(plans, s, d, Cancelling([d.subscription])) == (s', Finished);
    assert Finish(plans, s, d, Reweighing(p, MandateOf(s, d))) == (s', Finished);
    assert Finish(plans, s, d, Persisting(p)) == (s', Finished);
    assert Finish(plans, s, d, Weighing(p, MandateOf(s, d))) == (s', Finished);
    assert Finish(plans, s, d, Gating(p)) == (s', Finished);
  }

  /** Stale and deferred deliveries grant nothing, raise no plan and store no mandate. */
  lemma OnlyFitDeliveriesCount(plans: Catalogue, s: Shop, d: Delivery)
    requires d.subscription != "" && GateOf(plans, s, d) in {Stale, Defer}
    ensures Finish(plans, s, d, Fresh).1.Finished? && Agree(Finish(plans, s, d, Fresh).0, s)
  {
    hide Finish, GateOf;
    FinishIsOutcome(plans, s, d);
  }

  /** In the exceptional case the redelivery has the subscription cancelled that was just paid for
      and whose credits and plan were granted. */
  lemma FlippedIsCancelled(plans: Catalogue, s: Shop, d: Delivery, n: nat)
    requires Clean(d) && Flips(plans, s, d) && BetweenPlanAndMandate(Alone(plans, s, d, Fresh, n).1)
    ensures var cur := Alone(plans, s, d, Fresh, n).0;
            Finish(plans, cur, d, Fresh) == (cur.(cancelled := cur.cancelled + [d.subscription]), Finished)
  {
    hide Alone, Finish, Step;
    AloneKeepsStage(plans, s, d, s, Fresh, n);
    var cur := Alone(plans, s, d, Fresh, n).0;
    GateAfterAttach(plans, s, d, cur);
    StaleIsCancelled(plans, cur, d);
  }

  /** A paying delivery of a subscription stands between plan and mandate after six statements. */
  lemma SixStatements(plans: Catalogue, s: Shop, d: Delivery)
    requires Pays(plans, s, d) && Paid(plans, s, d).Some? && d.subscription != ""
    ensures Alone(plans, s, d, Fresh, 6).1 == Persisting(Previous(s, d))
  {
    var p := Previous(s, d);
    var s1 := Granted(s, d).value;
    var s2 := Attach(plans, s1, d.org, d.plan).value;
    assert Alone(plans, s1, d, Attaching(p), 1) == Alone(plans, s2, d, Persisting(p), 0);
    assert Weigh(plans, s, d, p, MandateOf(s, d)) == GateOf(plans, s, d);
    hide LegacyKey, GateOf, Weigh, MandateOf, L.GrantTx, GrantParamsOf, Attach, Paid;
    assert Alone(plans, s, d, Granting(p, LegacyIn(s, d)), 2) == Alone(plans, s1, d, Attaching(p), 1);
    assert Alone(plans, s, d, Checking(p), 3) == Alone(plans, s, d, Granting(p, LegacyIn(s, d)), 2);
    assert Alone(plans, s, d, Weighing(p, MandateOf(s, d)), 4) == Alone(plans, s, d, Checking(p), 3);
    assert Alone(plans, s, d, Gating(p), 5) == Alone(plans, s, d, Weighing(p, MandateOf(s, d)), 4);
    assert Alone(plans, s, d, Fresh, 6) == Alone(plans, s, d, Gating(p), 5);
  }

  /* ----- Cancellations ----- */

  /** What a delivery that completes has cancelled. */
  function Cancels(plans: Catalogue, s: Shop, d: Delivery): seq<string> {
    if d.org == "" || d.subscription == "" then []
    else
      match GateOf(plans, s, d)
      case Stale => [d.subscription]
      case Defer => []
      case Keep => Leftovers(plans, s, d, Previous(s, d))
      case Adopt => Priors(s, d, MandateOf(s, d))
  }

  /** What is still to be cancelled at each stage. */
  ghost predicate CancelStage(plans: Catalogue, s: Shop, d: Delivery, cur: Shop, pc: Pc) {
    var all := Cancels(plans, s, d);
    match pc
    case Cancelling(ids) => cur.cancelled + ids == s.cancelled + all
    case Finished => cur.cancelled == s.cancelled + all
    case Failed => cur.cancelled == s.cancelled
    case Storing(stored) => cur.cancelled == s.cancelled && stored == MandateOf(s, d)
    case Replacing(stored) =>
      && cur.cancelled == s.cancelled && d.org != "" && d.subscription != "" && cur.refs == s.refs
      && stored == MandateOf(s, d) && GateOf(plans, s, d) == Adopt
    case Keeping(p) =>
      && cur.cancelled == s.cancelled && d.org != "" && d.subscription != "" && cur.refs == s.refs
      && p == Previous(s, d) && GateOf(plans, s, d) == Keep
    case _ => cur.cancelled == s.cancelled
  }

  lemma EarlyCancelStage(plans: Catalogue, s: Shop, d: Delivery, cur: Shop, pc: Pc)
    requires Phase(pc) > 5 && Stage(plans, s, d, cur, pc) && CancelStage(plans, s, d, cur, pc)
    ensures CancelStage(plans, s, d, Step(plans, cur, d, pc).0, Step(plans, cur, d, pc).1)
  {
    hide Decision, L.GrantTx, GateOf, Rank, Priors, Leftovers, LegacyKey, GrantParamsOf;
    assert s.cancelled + [] == s.cancelled;
  }

  lemma PersistCancelStage(plans: Catalogue, s: Shop, d: Delivery, cur: Shop, pc: Pc)
    requires (pc.Persisting? || pc.Reweighing?) && Stage(plans, s, d, cur, pc) && CancelStage(plans, s, d, cur, pc)
    ensures CancelStage(plans, s, d, Step(plans, cur, d, pc).0, Step(plans, cur, d, pc).1)
  {
    PaidKeepsMandates(plans, s, d);
    assert s.cancelled + [] == s.cancelled;
    if pc.Reweighing? {
      ActsAsGated(plans, s, d, cur);
      assert Weigh(plans, cur, d, pc.previous, pc.stored) == GateOf(plans, s, d);
    }
    hide Weigh, GateOf, Paid, Priors, Leftovers, Trim, Outcome;
  }

  lemma StoringCancelStage(plans: Catalogue, s: Shop, d: Delivery, cur: Shop, pc: Pc)
    requires pc.Storing? && Stage(plans, s, d, cur, pc) && CancelStage(plans, s, d, cur, pc)
    ensures CancelStage(plans, s, d, Step(plans, cur, d, pc).0, Step(plans, cur, d, pc).1)
  {
    PaidKeepsMandates(plans, s, d);
    hide DecisionOf, GateOf, Paid, Trim, Outcome, Cancels;
  }

  lemma LaterCancelStage(plans: Catalogue, s: Shop, d: Delivery, cur: Shop, pc: Pc)
    requires Phase(pc) <= 2 && CancelStage(plans, s, d, cur, pc)
    ensures CancelStage(plans, s, d, Step(plans, cur, d, pc).0, Step(plans, cur, d, pc).1)
  {
    assert pc.Cancelling? && pc.ids != [] ==> cur.cancelled + [pc.ids[0]] + pc.ids[1..] == cur.cancelled + pc.ids;
    assert pc.Cancelling? && pc.ids == [] ==> cur.cancelled + pc.ids == cur.cancelled;
    hide GateOf, Distinct, StaleIDs, Trim, HigherPlan, SortOrder;
  }

  lemma StepKeepsCancelStage(plans: Catalogue, s: Shop, d: Delivery, cur: Shop, pc: Pc)
    requires Stage(plans, s, d, cur, pc) && CancelStage(plans, s, d, cur, pc)
    ensures CancelStage(plans, s, d, Step(plans, cur, d, pc).0, Step(plans, cur, d, pc).1)
  {
    hide Stage, Step, CancelStage;
    if Phase(pc) > 5 {
      EarlyCancelStage(plans, s, d, cur, pc);
    } else if pc.Persisting? || pc.Reweighing? {
      PersistCancelStage(plans, s, d, cur, pc);
    } else if pc.Storing? {
      StoringCancelStage(plans, s, d, cur, pc);
    } else {
      LaterCancelStage(plans, s, d, cur, pc);
    }
  }

  lemma {:induction false} FinishCancels(plans: Catalogue, s: Shop, d: Delivery, cur: Shop, pc: Pc)
    requires Stage(plans, s, d, cur, pc) && CancelStage(plans, s, d, cur, pc)
    ensures var (s', pc') := Finish(plans, cur, d, pc); CancelStage(plans, s, d, s', pc')
    decreases Phase(pc), Remaining(pc)
  {
    hide Stage, Step, CancelStage, Remaining;
    if !Ends(pc) {
      StepKeepsStage(plans, s, d, cur, pc);
      StepProgresses(plans, cur, d, pc);
      StepKeepsCancelStage(plans, s, d, cur, pc);
      var (s', pc') := Step(plans, cur, d, pc);
      FinishCancels(plans, s, d, s', pc');
    }
  }

  /** An undisturbed delivery that completes has cancelled exactly what its gate's decision says:
      the decision is not taken twice with different results. */
  lemma FinishCancelsAsGated(plans: Catalogue, s: Shop, d: Delivery)
    requires Finish(plans, s, d, Fresh).1.Finished?
    ensures Finish(plans, s, d, Fresh).0.cancelled == s.cancelled + Cancels(plans, s, d)
  {
    hide Finish, Cancels;
    FinishCancels(plans, s, d, s, Fresh);
  }
}
