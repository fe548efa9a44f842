/** When the billing transactions commit, and that what they were sent for is then in the tables. */
module Recording {
  import opened Wrappers
  import opened Sums
  import opened Ledger
  import opened Conservation
  import opened CreditRuns
  import opened Settlement
  import HoldPlan

  /** A hold is placed if and only if the organization exists, the planner makes a plan of at least one
      micro and one token for the balance that the reclaim leaves, and that balance covers the plan
      and the threshold. */
  lemma PlaceCommitsExactly(db: Db, org: string, threshold: int, ttl: int, plan: Planner, id: string, now: int)
    ensures PlaceHoldTx(db, org, threshold, ttl, plan, id, now).Committed?
            <==> && org != "" && org in db.orgs
                 && var free := db.orgs[org].remaining
                      + Sum(map h | h in db.holds && db.holds[h].org == org && !db.holds[h].settled && db.holds[h].expires < now
                                 :: db.holds[h].amount);
                    && plan(free).Ok?
                    && 1 <= plan(free).value.amount <= free && 1 <= plan(free).value.maxTokens && threshold <= free
  {
    assert ExpiredHolds(db, org, now)
        == map h | h in db.holds && db.holds[h].org == org && !db.holds[h].settled && db.holds[h].expires < now
             :: db.holds[h].amount;
  }

  /** A grant goes through if and only if it has a key and a positive amount, and its organization exists
      or its key is known; it then has its ledger row, and a new key moves its amount to the
      organization's granted and free credits, and nothing else. */
  lemma GrantCommitsExactly(db: Db, p: GrantParams)
    ensures GrantTx(db, p).Committed? <==> p.key != "" && p.amount > 0 && (p.key in db.ledger || p.org in db.orgs)
    ensures GrantTx(db, p).Committed? ==>
              if p.key in db.ledger then GrantTx(db, p).db == db
              else
                var o := db.orgs[p.org];
                && GrantTx(db, p).db.ledger == db.ledger[p.key := Entry(p.org, Grant, p.amount)]
                && GrantTx(db, p).db.orgs == db.orgs[p.org := Org(o.granted + p.amount, o.used, o.remaining + p.amount)]
                && GrantTx(db, p).db.holds == db.holds && GrantTx(db, p).db.requests == db.requests
  {
  }

  /** A call is recorded if and only if it has a key, its organization exists (or its request row is
      there already and no usage row is due), and its hold, if there is one, belongs to an existing
      organization. */
  lemma RecordCommitsExactly(db: Db, p: RecordParams)
    ensures RecordTx(db, p).Committed?
            <==> && p.key != ""
                 && (p.org in db.orgs
                     || (p.key in db.requests && !(p.amount > 0 && p.status == Success && "usage:" + p.key !in db.ledger)))
                 && (p.hold != "" && p.hold in db.holds ==> db.holds[p.hold].org in db.orgs)
  {
    var logged := WithUsage(WithRequest(db, p), p);
    assert logged.holds == db.holds && logged.orgs == db.orgs;
  }

  /* ----- Over runs ----- */

  lemma StepKeepsRows(env: Env, db: Db, s: Step)
    requires "" !in db.orgs
    ensures var db' := Apply(env, db, s);
            db.requests.Keys <= db'.requests.Keys && db.ledger.Keys <= db'.ledger.Keys && db.orgs.Keys <= db'.orgs.Keys
  {
    if s.Bill? && s.key in env.jobs && RecordTx(db, env.jobs[s.key]).Committed? {
      RecordShape(db, env.jobs[s.key]);
    }
    hide ExpiredHolds, RecordTx;
  }

  lemma {:induction false} RunKeepsRows(env: Env, db: Db, steps: seq<Step>)
    requires Inv(env, db) && ValidRun(env, db, steps)
    ensures var end := Final(env, db, steps);
            db.requests.Keys <= end.requests.Keys && db.ledger.Keys <= end.ledger.Keys && db.orgs.Keys <= end.orgs.Keys
    decreases |steps|
  {
    if steps != [] {
      assert "" !in db.orgs;
      hide Inv, Apply, Admissible;
      StepKeeps(env, db, steps[0]);
      StepKeepsRows(env, db, steps[0]);
      RunKeepsRows(env, Apply(env, db, steps[0]), steps[1..]);
    }
  }

  /** What a delivery or a grant was sent for is in the tables afterwards. */
  ghost predicate Done(env: Env, s: Step, db: Db) {
    match s
    case Bill(key) => key in db.requests
    case GrantOnce(key) => key in db.ledger
    case _ => true
  }

  /** It can be: its key is not empty, its organization exists and, for a grant, its amount is
      positive. */
  ghost predicate CanBeDone(env: Env, s: Step, db: Db) {
    match s
    case Bill(key) => key != "" && key in env.jobs && env.jobs[key].org in db.orgs
    case GrantOnce(key) => key != "" && key in env.grants && env.grants[key].org in db.orgs && env.grants[key].amount > 0
    case _ => true
  }

  lemma StepIsDone(env: Env, db: Db, s: Step)
    requires Inv(env, db) && Admissible(env, db, s) && CanBeDone(env, s, db)
    ensures Done(env, s, Apply(env, db, s))
  {
    match s
    case Bill(key) =>
      RecordCommitsExactly(db, env.jobs[key]);
      RecordShape(db, env.jobs[key]);
      hide RecordTx, WithUsage, Conserved;
    case GrantOnce(key) => GrantCommitsExactly(db, env.grants[key]);
    case _ =>
  }

  /** Wherever in a run a call is delivered or a grant made, its row is there in the end. */
  lemma {:induction false} DeliveredIsRecorded(env: Env, db: Db, steps: seq<Step>, at: nat)
    requires Inv(env, db) && ValidRun(env, db, steps) && at < |steps| && CanBeDone(env, steps[at], db)
    ensures Done(env, steps[at], Final(env, db, steps))
    decreases |steps|
  {
    var next := Apply(env, db, steps[0]);
    assert "" !in db.orgs;
    hide Inv, Apply, Admissible;
    StepKeeps(env, db, steps[0]);
    if at == 0 {
      StepIsDone(env, db, steps[0]);
      RunKeepsRows(env, next, steps[1..]);
    } else {
      StepKeepsRows(env, db, steps[0]);
      DeliveredIsRecorded(env, next, steps[1..], at - 1);
    }
  }

  /** So one delivery is enough: wherever it stands among repetitions, releases and sweeps, the call is
      charged exactly once and its hold is settled. */
  lemma OneDeliveryCharges(env: Env, db: Db, p: RecordParams, steps: seq<Step>)
    requires Inv(env, db) && ValidRun(env, db, steps)
    requires p.key != "" && p.key in env.jobs && env.jobs[p.key] == p && p.key !in db.requests
    requires p.org in db.orgs && (p.hold != "" ==> p.hold in db.holds && db.holds[p.hold].org == p.org)
    requires (forall s :: s in steps ==> Settles(p, s)) && Bill(p.key) in steps
    ensures var end := Final(env, db, steps);
            var charge := if p.status == Success && p.amount > 0 then p.amount else 0;
            && p.org in end.orgs
            && end.orgs[p.org].granted == db.orgs[p.org].granted
            && end.orgs[p.org].used == db.orgs[p.org].used + charge
            && end.orgs[p.org].remaining + Frozen(end, p.org) == db.orgs[p.org].remaining + Frozen(db, p.org) - charge
            && p.key in end.requests
            && ("usage:" + p.key in end.ledger <==> charge > 0)
            && (p.hold != "" ==> p.hold in end.holds && end.holds[p.hold].settled)
  {
    var at :| 0 <= at < |steps| && steps[at] == Bill(p.key);
    DeliveredIsRecorded(env, db, steps, at);
    SettlementIsConfluent(env, db, p, steps);
    EveryRunConserves(env, db, steps);
    WholeJobOf(env, Final(env, db, steps), p);
    hide Final, ValidRun, Inv, Frozen;
  }
}
