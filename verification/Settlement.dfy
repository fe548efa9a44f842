/** What the billing runs guarantee: settlement does not depend on the order or number of
    deliveries, debts are bounded, and within the planned ceiling no balance goes negative. */
module Settlement {
  import opened Wrappers
  import opened Sums
  import opened Ledger
  import opened Conservation
  import opened CreditRuns
  import Charge
  import HoldPlan

  /* ----- Confluence ----- */

  ghost predicate SameCallsAndGrants(env: Env, a: Db, b: Db) {
    && (forall k :: k in env.jobs ==> (k in a.requests <==> k in b.requests))
    && (forall g :: g in env.grants ==> (g in a.ledger <==> g in b.ledger))
  }

  lemma SameLedger(env: Env, a: Db, b: Db)
    requires JobsWhole(env, a) && JobsWhole(env, b) && LedgerFaithful(env, a) && LedgerFaithful(env, b)
    requires SameCallsAndGrants(env, a, b)
    ensures a.ledger.Keys <= b.ledger.Keys
    ensures forall key :: key in a.ledger ==> a.ledger[key] == b.ledger[key]
  {
    forall key | key in a.ledger
      ensures key in b.ledger && a.ledger[key] == b.ledger[key]
    {
      assert RowFaithful(env, key, a.ledger[key]);
      if IsUsageKey(key) {
        var p := env.jobs[key[6..]];
        assert key == UsageKey(p.key);
        assert JobWhole(a, p) && JobWhole(b, p);
      }
      assert RowFaithful(env, key, b.ledger[key]);
    }
  }

  /** What two states agree on when they recorded the same calls and grants, however much is frozen:
      the ledger, granted and used credits, and free and frozen credits together. */
  ghost predicate SameAccounts(a: Db, b: Db) {
    && a.ledger == b.ledger
    && a.orgs.Keys == b.orgs.Keys
    && forall o :: o in a.orgs ==>
         && a.orgs[o].granted == b.orgs[o].granted
         && a.orgs[o].used == b.orgs[o].used
         && a.orgs[o].remaining + Frozen(a, o) == b.orgs[o].remaining + Frozen(b, o)
  }

  /** Two runs in any order, with any retries, that recorded the same calls and granted the same
      grants end with the same ledger and the same accounts; where the same is frozen, also with
      the same free credits. */
  lemma RunsAreConfluent(env: Env, db: Db, left: seq<Step>, right: seq<Step>)
    requires Inv(env, db) && ValidRun(env, db, left) && ValidRun(env, db, right)
    requires var a, b := Final(env, db, left), Final(env, db, right);
             a.orgs.Keys == b.orgs.Keys && SameCallsAndGrants(env, a, b)
    ensures var a, b := Final(env, db, left), Final(env, db, right);
            && SameAccounts(a, b)
            && (forall o :: o in a.orgs && Frozen(a, o) == Frozen(b, o) ==> a.orgs[o] == b.orgs[o])
  {
    EveryRunConserves(env, db, left);
    EveryRunConserves(env, db, right);
    ConfluentStates(env, Final(env, db, left), Final(env, db, right));
  }

  lemma ConfluentStates(env: Env, a: Db, b: Db)
    requires Inv(env, a) && Inv(env, b) && a.orgs.Keys == b.orgs.Keys && SameCallsAndGrants(env, a, b)
    ensures SameAccounts(a, b)
    ensures forall o :: o in a.orgs && Frozen(a, o) == Frozen(b, o) ==> a.orgs[o] == b.orgs[o]
  {
    LedgersAgree(env, a, b);
    AllAccountsAgree(a, b);
  }

  lemma LedgersAgree(env: Env, a: Db, b: Db)
    requires JobsWhole(env, a) && JobsWhole(env, b) && LedgerFaithful(env, a) && LedgerFaithful(env, b)
    requires SameCallsAndGrants(env, a, b)
    ensures a.ledger == b.ledger
  {
    SameLedger(env, a, b);
    SameLedger(env, b, a);
  }

  lemma AllAccountsAgree(a: Db, b: Db)
    requires Conserved(a) && Conserved(b) && a.orgs.Keys == b.orgs.Keys && a.ledger == b.ledger
    ensures SameAccounts(a, b)
    ensures forall o :: o in a.orgs && Frozen(a, o) == Frozen(b, o) ==> a.orgs[o] == b.orgs[o]
  {
    forall o | o in a.orgs
      ensures a.orgs[o].granted == b.orgs[o].granted && a.orgs[o].used == b.orgs[o].used
      ensures a.orgs[o].remaining + Frozen(a, o) == b.orgs[o].remaining + Frozen(b, o)
    {
      assert Balanced(a, o) && Balanced(b, o);
      AccountsAgree(a, b, o);
    }
  }

  lemma AccountsAgree(a: Db, b: Db, o: string)
    requires o in a.orgs && o in b.orgs && Balanced(a, o) && Balanced(b, o) && a.ledger == b.ledger
    ensures a.orgs[o].granted == b.orgs[o].granted && a.orgs[o].used == b.orgs[o].used
    ensures a.orgs[o].remaining + Frozen(a, o) == b.orgs[o].remaining + Frozen(b, o)
  {
    SameTables(a, b, o);
  }

  function Spend(p: RecordParams): int {
    if Billable(p) then p.amount else 0
  }

  /** The steps that can touch one job's settlement: deliveries of the job, releases of its hold
      and sweeps of any organizations at any time. */
  predicate Settles(p: RecordParams, s: Step) {
    match s
    case Bill(key) => key == p.key
    case Release(hold) => hold == p.hold
    case Sweep(_, _) => true
    case _ => false
  }

  /** Where such a run can be, seen from its start. */
  ghost predicate Underway(start: Db, p: RecordParams, cur: Db) {
    && cur.orgs.Keys == start.orgs.Keys
    && cur.holds.Keys == start.holds.Keys
    && HoldsOnlyAge(start, cur)
    && (if p.key in cur.requests then
          && cur.requests == start.requests[p.key := Request(p.org, p.status, p.inputTokens, p.outputTokens)]
          && cur.ledger == if Billable(p) then start.ledger[UsageKey(p.key) := Entry(p.org, Usage, p.amount)] else start.ledger
        else
          cur.requests == start.requests && cur.ledger == start.ledger)
  }

  lemma BillUnderway(start: Db, p: RecordParams, cur: Db, next: Db)
    requires Underway(start, p, cur) && RecordEffect(cur, p, next)
    requires UsageKey(p.key) !in start.ledger
    requires p.key in cur.requests ==> (UsageKey(p.key) in cur.ledger <==> Billable(p))
    ensures Underway(start, p, next)
  {
  }

  lemma {:induction false} SettlementUnderway(env: Env, start: Db, cur: Db, p: RecordParams, steps: seq<Step>)
    requires p.key in env.jobs && env.jobs[p.key] == p && p.key !in start.requests
    requires Inv(env, start) && Inv(env, cur) && ValidRun(env, cur, steps) && Underway(start, p, cur)
    requires forall s :: s in steps ==> Settles(p, s)
    ensures Underway(start, p, Final(env, cur, steps))
    decreases |steps|
  {
    if steps != [] {
      var next := Apply(env, cur, steps[0]);
      assert Settles(p, steps[0]);
      OneStepUnderway(env, start, cur, p, steps[0]);
      StepKeeps(env, cur, steps[0]);
      SettlementUnderway(env, start, next, p, steps[1..]);
    }
  }

  lemma OneStepUnderway(env: Env, start: Db, cur: Db, p: RecordParams, s: Step)
    requires p.key in env.jobs && env.jobs[p.key] == p && p.key !in start.requests
    requires Inv(env, start) && Inv(env, cur) && Underway(start, p, cur) && Settles(p, s)
    ensures Underway(start, p, Apply(env, cur, s))
  {
    match s
    case Bill(_) =>
      assert JobWhole(start, p) && JobWhole(cur, p);
      BillStepUnderway(start, p, cur);
    case Release(hold) =>
      ReleaseAges(cur, hold);
      AgedUnderway(start, p, cur, After(cur, SettleTx(cur, hold, 0)));
    case Sweep(orgs, now) =>
      SweepAges(cur, orgs, now);
      AgedUnderway(start, p, cur, SweepTx(cur, orgs, now));
  }

  lemma BillStepUnderway(start: Db, p: RecordParams, cur: Db)
    requires "" !in cur.orgs && Underway(start, p, cur) && p.key !in start.requests
    requires JobWhole(start, p) && JobWhole(cur, p)
    ensures Underway(start, p, After(cur, RecordTx(cur, p)))
  {
    if RecordTx(cur, p).Committed? {
      RecordShape(cur, p);
      BillUnderway(start, p, cur, RecordTx(cur, p).db);
    }
  }

  lemma AgedUnderway(start: Db, p: RecordParams, cur: Db, next: Db)
    requires Underway(start, p, cur) && HoldsOnlyAge(cur, next)
    requires next.requests == cur.requests && next.ledger == cur.ledger
    requires next.orgs.Keys == cur.orgs.Keys && next.holds.Keys == cur.holds.Keys
    ensures Underway(start, p, next)
  {
  }

  /** For one call and its hold: whatever the number and order of deliveries, releases and
      sweeps, once a delivery has been recorded the hold is settled, there is one usage row for
      exactly the actual charge (none if the call is free), and the organization's free and
      frozen credits together have fallen by exactly that charge. */
  lemma SettlementIsConfluent(env: Env, db: Db, p: RecordParams, steps: seq<Step>)
    requires Inv(env, db) && ValidRun(env, db, steps)
    requires p.key in env.jobs && env.jobs[p.key] == p && p.key !in db.requests
    requires p.org in db.orgs && (p.hold != "" ==> p.hold in db.holds && db.holds[p.hold].org == p.org)
    requires forall s :: s in steps ==> Settles(p, s)
    requires p.key in Final(env, db, steps).requests
    ensures var end := Final(env, db, steps);
            && p.org in end.orgs
            && end.orgs[p.org].granted == db.orgs[p.org].granted
            && end.orgs[p.org].used == db.orgs[p.org].used + Spend(p)
            && end.orgs[p.org].remaining + Frozen(end, p.org) == db.orgs[p.org].remaining + Frozen(db, p.org) - Spend(p)
            && RowsOfOneCall(db, end, p)
  {
    var end := Final(env, db, steps);
    WholeJobOf(env, db, p);
    SettlementUnderway(env, db, db, p, steps);
    EveryRunConserves(env, db, steps);
    RecordedOnce(env, db, end, p);
  }

  lemma RecordedOnce(env: Env, db: Db, end: Db, p: RecordParams)
    requires Inv(env, db) && Inv(env, end) && Underway(db, p, end)
    requires p.key in env.jobs && env.jobs[p.key] == p && p.org in db.orgs && p.key in end.requests
    requires UsageKey(p.key) !in db.ledger
    ensures p.org in end.orgs
    ensures end.orgs[p.org].granted == db.orgs[p.org].granted
    ensures end.orgs[p.org].used == db.orgs[p.org].used + Spend(p)
    ensures end.orgs[p.org].remaining + Frozen(end, p.org) == db.orgs[p.org].remaining + Frozen(db, p.org) - Spend(p)
    ensures RowsOfOneCall(db, end, p)
  {
    BalancedAt(env, db, p.org);
    BalancedAt(env, end, p.org);
    UsageMoves(db, end, p);
    WholeJobOf(env, end, p);
    RowsRecorded(db, end, p);
  }

  /** One request row, at most one usage row, a settled hold. */
  ghost predicate RowsOfOneCall(db: Db, end: Db, p: RecordParams) {
    && end.requests.Keys == db.requests.Keys + {p.key}
    && end.ledger.Keys == db.ledger.Keys + (if Billable(p) then {UsageKey(p.key)} else {})
    && (p.hold != "" ==> p.hold in end.holds && end.holds[p.hold].settled)
  }

  lemma RowsRecorded(db: Db, end: Db, p: RecordParams)
    requires Underway(db, p, end) && JobWhole(end, p) && p.key in end.requests
    ensures RowsOfOneCall(db, end, p)
  {
  }

  lemma BalancedAt(env: Env, db: Db, o: string)
    requires Inv(env, db) && o in db.orgs
    ensures Balanced(db, o)
  {
  }

  lemma WholeJobOf(env: Env, db: Db, p: RecordParams)
    requires JobsWhole(env, db) && p.key in env.jobs && env.jobs[p.key] == p
    ensures JobWhole(db, p)
  {
  }

  lemma UsageMoves(db: Db, end: Db, p: RecordParams)
    requires p.org in db.orgs && Underway(db, p, end)
    requires Balanced(db, p.org) && Balanced(end, p.org)
    requires p.key in end.requests && UsageKey(p.key) !in db.ledger
    ensures end.orgs[p.org].granted == db.orgs[p.org].granted
    ensures end.orgs[p.org].used == db.orgs[p.org].used + Spend(p)
    ensures end.orgs[p.org].remaining + Frozen(end, p.org) == db.orgs[p.org].remaining + Frozen(db, p.org) - Spend(p)
  {
    if Billable(p) {
      LedgerInsert(db, UsageKey(p.key), Entry(p.org, Usage, p.amount), p.org, Grant);
      LedgerInsert(db, UsageKey(p.key), Entry(p.org, Usage, p.amount), p.org, Usage);
      SameTables(db.(ledger := end.ledger), end, p.org);
    } else {
      SameTables(db, end, p.org);
    }
  }

  /** When the call's hold was the organization's only open one, its balance ends at what it was
      before the hold, less exactly the charge. */
  lemma OnlyHoldComesBack(env: Env, db: Db, p: RecordParams, steps: seq<Step>)
    requires Inv(env, db) && ValidRun(env, db, steps)
    requires p.key in env.jobs && env.jobs[p.key] == p && p.key !in db.requests
    requires p.org in db.orgs && p.hold != "" && p.hold in db.holds && db.holds[p.hold].org == p.org
    requires OpenHolds(db, p.org).Keys == {p.hold}
    requires forall s :: s in steps ==> Settles(p, s)
    requires p.key in Final(env, db, steps).requests
    ensures var end := Final(env, db, steps);
            p.org in end.orgs && end.orgs[p.org].remaining == db.orgs[p.org].remaining + db.holds[p.hold].amount - Spend(p)
  {
    var end := Final(env, db, steps);
    SettlementIsConfluent(env, db, p, steps);
    SettlementUnderway(env, db, db, p, steps);
    SumRemove(OpenHolds(db, p.org), p.hold);
    assert OpenHolds(db, p.org) - {p.hold} == map[];
    assert OpenHolds(end, p.org) == map[] by {
      forall h | h in end.holds && end.holds[h].org == p.org
        ensures end.holds[h].settled
      {
        assert h in db.holds;
        assert h != p.hold ==> h !in OpenHolds(db, p.org);
      }
    }
  }

  /* ----- Failed calls ----- */

  /** A call that failed writes no usage row and settles as a plain release: whatever its token
      counts say, its open hold comes back in full. */
  lemma FailureIsFree(db: Db, p: RecordParams)
    requires p.status == Failure && RecordTx(db, p).Committed?
    ensures RecordTx(db, p).db == After(WithRequest(db, p), SettleTx(WithRequest(db, p), p.hold, 0))
    ensures RecordTx(db, p).db.ledger == db.ledger
    ensures forall o :: o in db.orgs && o in RecordTx(db, p).db.orgs ==>
      && RecordTx(db, p).db.orgs[o].used == db.orgs[o].used
      && RecordTx(db, p).db.orgs[o].remaining == db.orgs[o].remaining + Returned(db, p, o)
  {
    assert WithUsage(WithRequest(db, p), p) == WithRequest(db, p);
  }

  /* ----- What callers are told ----- */

  /** A placed hold's reply is true: the id names a new open hold of the amount, and the balances
      reported are the one after the reclaim and the one stored. */
  lemma PlaceReplyIsTrue(db: Db, org: string, threshold: int, ttl: int, plan: Planner, id: string, now: int)
    requires id !in db.holds
    requires PlaceHoldTx(db, org, threshold, ttl, plan, id, now).Committed?
    ensures var (db', r) := (PlaceHoldTx(db, org, threshold, ttl, plan, id, now).db, PlaceHoldTx(db, org, threshold, ttl, plan, id, now).value);
            && r.id == id && OpenHolds(db', org) == (OpenHolds(db, org) - ExpiredHolds(db, org, now).Keys)[id := r.amount]
            && r.org == org && org in db.orgs && org in db'.orgs
            && r.before == db.orgs[org].remaining + Sum(ExpiredHolds(db, org, now))
            && r.after == db'.orgs[org].remaining == r.before - r.amount
            && plan(r.before) == Ok(HoldPlan.Plan(r.amount, r.maxTokens))
            && r.amount >= 1 && r.maxTokens >= 1 && r.before >= threshold
  {
  }

  /** A settlement's reply is true: it was applied exactly if the hold was open, and then the
      balances reported are the stored ones and differ by the refund. */
  lemma SettleReplyIsTrue(db: Db, hold: string, actual: int)
    requires WellFormed(db)
    ensures var outcome := SettleTx(db, hold, actual);
            && outcome.Committed?
            && (outcome.value.found <==> hold in db.holds)
            && (outcome.value.applied <==> hold in db.holds && !db.holds[hold].settled)
            && (outcome.value.applied ==>
                  var r, o := outcome.value, db.holds[hold].org;
                  && r.org == o && outcome.db.holds[hold].settled
                  && r.amount == db.holds[hold].amount && r.actual == (if actual < 0 then 0 else actual)
                  && r.before == db.orgs[o].remaining && r.after == outcome.db.orgs[o].remaining
                  && r.after - r.before == r.refund == r.amount - r.actual
                  && outcome.db.orgs[o].used - db.orgs[o].used == r.actual >= 0)
            && (!outcome.value.applied ==> outcome.db == db)
  {
  }

  /* ----- Debts ----- */

  ghost function Free(db: Db, o: string): int {
    if o in db.orgs then db.orgs[o].remaining else 0
  }

  /** What a delivery takes from the free credits beyond the hold it gives back: the overrun of a
      timely settlement, or the whole charge when the hold was already refunded or never placed. */
  ghost function Overrun(env: Env, db: Db, s: Step, o: string): int {
    if s.Bill? && s.key in env.jobs && RecordTx(db, env.jobs[s.key]).Committed? then
      Charge.Max(0, SpentOn(db, env.jobs[s.key], o) - Returned(db, env.jobs[s.key], o))
    else 0
  }

  ghost function TotalOverrun(env: Env, db: Db, steps: seq<Step>, o: string): int
    decreases |steps|
  {
    if steps == [] then 0
    else Overrun(env, db, steps[0], o) + TotalOverrun(env, Apply(env, db, steps[0]), steps[1..], o)
  }

  lemma SweepPays(db: Db, orgs: set<string>, now: int, o: string)
    requires WellFormed(db)
    ensures Free(SweepTx(db, orgs, now), o) >= Free(db, o)
  {
    SumNonNegative(ExpiredHolds(db, o, now));
  }

  /** A committed hold leaves the balance it was taken from non-negative. */
  lemma PlaceLeavesNonNegative(db: Db, org: string, threshold: int, ttl: int, plan: Planner, id: string,
          now: int, o: string)
    requires WellFormed(db)
    ensures var db' := After(db, PlaceHoldTx(db, org, threshold, ttl, plan, id, now));
            Free(db', o) >= 0 || Free(db', o) >= Free(db, o)
  {
    SweepPays(db, {org}, now, o);
  }

  lemma BillDebt(db: Db, p: RecordParams, o: string)
    requires WellFormed(db) && RecordTx(db, p).Committed?
    ensures Free(RecordTx(db, p).db, o) >= Free(db, o) - Charge.Max(0, SpentOn(db, p, o) - Returned(db, p, o))
  {
    RecordShape(db, p);
  }

  lemma ReleasePays(db: Db, hold: string, o: string)
    requires WellFormed(db)
    ensures Free(After(db, SettleTx(db, hold, 0)), o) >= Free(db, o)
  {
  }

  lemma StepDebt(env: Env, db: Db, s: Step, o: string)
    requires WellFormed(db) && Admissible(env, db, s)
    ensures Free(Apply(env, db, s), o) >= 0 || Free(Apply(env, db, s), o) >= Free(db, o) - Overrun(env, db, s, o)
  {
    match s
    case SignUp(org) =>
    case Place(org, threshold, ttl, plan, id, now) => PlaceLeavesNonNegative(db, org, threshold, ttl, plan, id, now, o);
    case Bill(key) =>
      if RecordTx(db, env.jobs[key]).Committed? {
        BillDebt(db, env.jobs[key], o);
      }
    case Release(hold) => ReleasePays(db, hold, o);
    case Sweep(orgs, now) => SweepPays(db, orgs, now, o);
    case GrantOnce(key) =>
  }

  lemma {:induction false} OverrunNonNegative(env: Env, db: Db, steps: seq<Step>, o: string)
    ensures TotalOverrun(env, db, steps, o) >= 0
    decreases |steps|
  {
    if steps != [] {
      OverrunNonNegative(env, Apply(env, db, steps[0]), steps[1..], o);
    }
  }

  /** Over any run an organization's debt grows by no more than the accumulated overruns; in
      particular one that starts without debt never owes more than their total. */
  lemma {:induction false} DebtIsBounded(env: Env, db: Db, steps: seq<Step>, o: string, debt: nat)
    requires Inv(env, db) && ValidRun(env, db, steps)
    requires Free(db, o) + debt >= 0
    ensures Free(Final(env, db, steps), o) + debt + TotalOverrun(env, db, steps, o) >= 0
    decreases |steps|
  {
    if steps != [] {
      var next := Apply(env, db, steps[0]);
      StepKeeps(env, db, steps[0]);
      StepDebt(env, db, steps[0], o);
      DebtIsBounded(env, next, steps[1..], o, debt + Overrun(env, db, steps[0], o));
    }
  }

  /* ----- The cost ceiling, from the plan to the bill ----- */

  /** What one call was reserved with, and the token cap its provider was given. */
  datatype Call = Call(
    estimate: int, requestedMax: int, defaultMax: int, inputPrice: nat, outputPrice: nat, threshold: int, cap: int)

  function PlanFor(c: Call, available: int): Result<HoldPlan.Plan, HoldPlan.PlanError> {
    HoldPlan.ComputeHold(c.estimate, c.requestedMax, c.defaultMax, c.inputPrice, c.outputPrice, available, c.threshold)
  }

  ghost predicate PlansFor(plan: Planner, c: Call) {
    forall available :: plan(available) == PlanFor(c, available)
  }

  /** Under the row lock, the conditional debit never refuses what the planner allowed. */
  lemma PlannedHoldIsPlaced(db: Db, org: string, c: Call, ttl: int, plan: Planner, id: string, now: int)
    requires org != "" && org in db.orgs && PlansFor(plan, c)
    ensures var available := SweepTx(db, {org}, now).orgs[org].remaining;
            var outcome := PlaceHoldTx(db, org, c.threshold, ttl, plan, id, now);
            && (outcome.Committed? <==> PlanFor(c, available).Ok?)
            && (outcome.RolledBack? ==> outcome.error == PlanRefused(HoldPlan.InsufficientCredits))
  {
    var available := SweepTx(db, {org}, now).orgs[org].remaining;
    HoldPlan.ComputeHoldIsMaximal(c.estimate, c.requestedMax, c.defaultMax, c.inputPrice, c.outputPrice, available, c.threshold);
  }

  function CeilingOf(c: Call): int {
    HoldPlan.Freeze(c.estimate, c.cap, c.inputPrice, c.outputPrice)
  }

  /** Every hold row covers the ceiling of the call it was placed for. */
  ghost predicate HoldsCover(calls: map<string, Call>, db: Db) {
    forall h :: h in db.holds ==> h in calls && db.holds[h].amount >= CeilingOf(calls[h])
  }

  /** A step that respects the plan: holds are planned for their call and the provider gets the
      planned cap; a delivery bills its own call's tokens at the reserved prices, within the
      estimate and the cap, and comes before its hold is reclaimed (or is a retry, or free). */
  ghost predicate WithinPlan(env: Env, calls: map<string, Call>, db: Db, s: Step) {
    match s
    case Place(org, threshold, ttl, plan, id, now) =>
      && id in calls && PlansFor(plan, calls[id]) && threshold == calls[id].threshold
      && (PlaceHoldTx(db, org, threshold, ttl, plan, id, now).Committed? ==>
            PlaceHoldTx(db, org, threshold, ttl, plan, id, now).value.maxTokens == calls[id].cap)
    case Bill(key) =>
      key in env.jobs ==>
        var p := env.jobs[key];
        && p.hold in db.holds && p.hold in calls
        && (p.status == Success ==>
              && p.amount == Charge.ChargeMicros(p.inputTokens, p.outputTokens, calls[p.hold].inputPrice, calls[p.hold].outputPrice)
              && p.inputTokens <= calls[p.hold].estimate && p.outputTokens <= calls[p.hold].cap)
        && (!db.holds[p.hold].settled || !InsertsUsage(db, p))
    case _ => true
  }

  ghost predicate RunWithinPlan(env: Env, calls: map<string, Call>, db: Db, steps: seq<Step>)
    decreases |steps|
  {
    steps != [] ==>
      WithinPlan(env, calls, db, steps[0]) && RunWithinPlan(env, calls, Apply(env, db, steps[0]), steps[1..])
  }

  lemma PlanCovers(env: Env, calls: map<string, Call>, db: Db, s: Step)
    requires s.Place? && Admissible(env, db, s) && WithinPlan(env, calls, db, s) && HoldsCover(calls, db)
    ensures HoldsCover(calls, Apply(env, db, s))
  {
    if PlaceHoldTx(db, s.org, s.threshold, s.ttlNanos, s.plan, s.id, s.now).Committed? {
      var c := calls[s.id];
      var available := SweepTx(db, {s.org}, s.now).orgs[s.org].remaining;
      assert s.plan(available) == PlanFor(c, available);
      HoldPlan.ComputeHoldIsMaximal(c.estimate, c.requestedMax, c.defaultMax, c.inputPrice, c.outputPrice, available, c.threshold);
    }
  }

  lemma BilledWithinHold(env: Env, calls: map<string, Call>, db: Db, key: string, o: string)
    requires WellFormed(db) && Admissible(env, db, Bill(key)) && WithinPlan(env, calls, db, Bill(key)) && HoldsCover(calls, db)
    ensures Overrun(env, db, Bill(key), o) == 0
  {
    var p := env.jobs[key];
    var c := calls[p.hold];
    if p.status == Success {
      Charge.FloorWithinCeiling(p.inputTokens, p.outputTokens, c.estimate, c.cap, c.inputPrice, c.outputPrice);
    }
  }

  /** Runs whose calls keep to their plan and settle before their hold is reclaimed never
      overdraw any organization, at any point. */
  lemma {:induction false} NeverOverdrawn(env: Env, calls: map<string, Call>, db: Db, steps: seq<Step>)
    requires Inv(env, db) && ValidRun(env, db, steps) && RunWithinPlan(env, calls, db, steps)
    requires HoldsCover(calls, db) && forall o :: o in db.orgs ==> db.orgs[o].remaining >= 0
    ensures HoldsCover(calls, Final(env, db, steps))
    ensures forall o :: o in Final(env, db, steps).orgs ==> Final(env, db, steps).orgs[o].remaining >= 0
    decreases |steps|
  {
    if steps != [] {
      var next := Apply(env, db, steps[0]);
      StepKeeps(env, db, steps[0]);
      StepCovers(env, calls, db, steps[0]);
      forall o | o in next.orgs
        ensures next.orgs[o].remaining >= 0
      {
        StepStaysPositive(env, calls, db, steps[0], o);
      }
      NeverOverdrawn(env, calls, next, steps[1..]);
    }
  }

  lemma StepStaysPositive(env: Env, calls: map<string, Call>, db: Db, s: Step, o: string)
    requires Inv(env, db) && Admissible(env, db, s) && WithinPlan(env, calls, db, s) && HoldsCover(calls, db)
    requires Free(db, o) >= 0
    ensures Free(Apply(env, db, s), o) >= 0
  {
    StepDebt(env, db, s, o);
    if s.Bill? {
      BilledWithinHold(env, calls, db, s.key, o);
    }
  }

  lemma StepCovers(env: Env, calls: map<string, Call>, db: Db, s: Step)
    requires Inv(env, db) && Admissible(env, db, s) && WithinPlan(env, calls, db, s) && HoldsCover(calls, db)
    ensures HoldsCover(calls, Apply(env, db, s))
  {
    match s
    case Place(_, _, _, _, _, _) => PlanCovers(env, calls, db, s);
    case Bill(key) =>
      if RecordTx(db, env.jobs[key]).Committed? {
        RecordShape(db, env.jobs[key]);
      }
    case Release(hold) => ReleaseAges(db, hold);
    case Sweep(orgs, now) => SweepAges(db, orgs, now);
    case _ =>
  }
}
