/** Whole runs of the billing transactions: any interleaving, any number of redeliveries. */
module CreditRuns {
  import opened Ledger
  import opened Conservation

  /** What is fixed before the run: the job behind each idempotency key, and the grant behind
      each grant key. */
  datatype Env = Env(jobs: map<string, RecordParams>, grants: map<string, GrantParams>)

  datatype Step =
    | SignUp(org: string)
    | Place(org: string, threshold: int, ttlNanos: int, plan: Planner, id: string, now: int)
    | Bill(key: string)
    | Release(hold: string)
    | Sweep(orgs: set<string>, now: int)
    | GrantOnce(key: string)

  ghost function Apply(env: Env, db: Db, s: Step): Db {
    match s
    case SignUp(org) => if org in db.orgs then db else db.(orgs := db.orgs[org := Org(0, 0, 0)])
    case Place(org, threshold, ttl, plan, id, now) => After(db, PlaceHoldTx(db, org, threshold, ttl, plan, id, now))
    case Bill(key) => if key in env.jobs then After(db, RecordTx(db, env.jobs[key])) else db
    case Release(hold) => After(db, SettleTx(db, hold, 0))
    case Sweep(orgs, now) => SweepTx(db, orgs, now)
    case GrantOnce(key) => if key in env.grants then After(db, GrantTx(db, env.grants[key])) else db
  }

  /** What the code relies on: generated hold ids are fresh, a job's hold row exists and belongs
      to the job's organization, and no grant key is also a usage key. */
  ghost predicate Admissible(env: Env, db: Db, s: Step) {
    match s
    case SignUp(org) => org != ""
    case Place(_, _, _, _, id, _) => id !in db.holds && id != ""
    case Bill(key) =>
      && key in env.jobs
      && var p := env.jobs[key];
      && p.key == key
      && (p.hold != "" ==> p.hold in db.holds && db.holds[p.hold].org == p.org)
    case GrantOnce(key) =>
      && key in env.grants && env.grants[key].key == key
      && !IsUsageKey(key)
    case _ => true
  }

  predicate IsUsageKey(key: string) {
    |key| >= 6 && key[..6] == "usage:"
  }

  ghost predicate ValidRun(env: Env, db: Db, steps: seq<Step>)
    decreases |steps|
  {
    steps != [] ==> Admissible(env, db, steps[0]) && ValidRun(env, Apply(env, db, steps[0]), steps[1..])
  }

  ghost function Final(env: Env, db: Db, steps: seq<Step>): Db
    decreases |steps|
  {
    if steps == [] then db else Final(env, Apply(env, db, steps[0]), steps[1..])
  }

  /* ----- The invariant of every reachable state ----- */

  predicate Billable(p: RecordParams) {
    p.amount > 0 && p.status == Success
  }

  /** A job's request row, its usage row and its settled hold exist together or not at all. */
  ghost predicate JobWhole(db: Db, p: RecordParams) {
    if p.key in db.requests then
      && db.requests[p.key] == Request(p.org, p.status, p.inputTokens, p.outputTokens)
      && (UsageKey(p.key) in db.ledger <==> Billable(p))
      && (p.hold != "" ==> p.hold in db.holds && db.holds[p.hold].settled)
    else UsageKey(p.key) !in db.ledger
  }

  ghost predicate JobsWhole(env: Env, db: Db) {
    forall k :: k in env.jobs && env.jobs[k].key == k ==> JobWhole(db, env.jobs[k])
  }

  /** Every ledger row says what its key's job or grant says. */
  ghost predicate RowFaithful(env: Env, key: string, e: Entry) {
    if IsUsageKey(key) then
      && key[6..] in env.jobs
      && var p := env.jobs[key[6..]];
      p.key == key[6..] && e == Entry(p.org, Usage, p.amount)
    else
      && key in env.grants
      && e == Entry(env.grants[key].org, Grant, env.grants[key].amount)
  }

  ghost predicate LedgerFaithful(env: Env, db: Db) {
    forall key :: key in db.ledger ==> RowFaithful(env, key, db.ledger[key])
  }

  ghost predicate Inv(env: Env, db: Db) {
    && WellFormed(db)
    && Conserved(db)
    && JobsWhole(env, db)
    && LedgerFaithful(env, db)
  }

  lemma EmptyTablesAreBalanced(env: Env)
    ensures Inv(env, Db(map[], map[], map[], map[]))
  {
  }

  lemma UsageKeysAreDistinct(a: string, b: string)
    ensures IsUsageKey(UsageKey(a)) && UsageKey(a)[6..] == a
    ensures UsageKey(a) == UsageKey(b) ==> a == b
  {
    assert UsageKey(a)[6..] == a && UsageKey(b)[6..] == b;
    assert UsageKey(a)[..6] == "usage:";
  }

  /* ----- Each step keeps it ----- */

  lemma SignUpBalances(db: Db, org: string, o: string)
    requires WellFormed(db) && Conserved(db) && org !in db.orgs && (o == org || o in db.orgs)
    ensures Balanced(db.(orgs := db.orgs[org := Org(0, 0, 0)]), o)
  {
    var db' := db.(orgs := db.orgs[org := Org(0, 0, 0)]);
    SameTables(db, db', o);
    if o == org {
      assert OpenHolds(db', o) == map[] && Entries(db', o, Grant) == map[] && Entries(db', o, Usage) == map[];
    } else {
      assert Balanced(db, o);
    }
  }

  lemma SignUpConserves(db: Db, org: string)
    requires WellFormed(db) && Conserved(db) && org !in db.orgs && org != ""
    ensures var db' := db.(orgs := db.orgs[org := Org(0, 0, 0)]); WellFormed(db') && Conserved(db')
  {
    var db' := db.(orgs := db.orgs[org := Org(0, 0, 0)]);
    forall o | o in db'.orgs
      ensures Balanced(db', o)
    {
      SignUpBalances(db, org, o);
    }
  }

  lemma SignUpKeeps(env: Env, db: Db, org: string)
    requires Inv(env, db) && org != ""
    ensures Inv(env, Apply(env, db, SignUp(org)))
  {
    if org !in db.orgs {
      SignUpConserves(db, org);
      OtherTablesKeepJobs(env, db, db.(orgs := db.orgs[org := Org(0, 0, 0)]));
    }
  }

  /** Settled holds stay settled, whatever else a step does to the other tables. */
  ghost predicate HoldsOnlyAge(db: Db, db': Db) {
    forall h :: h in db.holds ==>
      && h in db'.holds
      && db'.holds[h].org == db.holds[h].org
      && db'.holds[h].amount == db.holds[h].amount
      && (db.holds[h].settled ==> db'.holds[h].settled)
  }

  lemma OtherTablesKeepJobs(env: Env, db: Db, db': Db)
    requires JobsWhole(env, db) && LedgerFaithful(env, db)
    requires db'.requests == db.requests && db'.ledger == db.ledger && HoldsOnlyAge(db, db')
    ensures JobsWhole(env, db') && LedgerFaithful(env, db')
  {
    forall k | k in env.jobs && env.jobs[k].key == k
      ensures JobWhole(db', env.jobs[k])
    {
      assert JobWhole(db, env.jobs[k]);
    }
  }

  lemma PlaceKeeps(env: Env, db: Db, s: Step)
    requires Inv(env, db) && s.Place? && Admissible(env, db, s)
    ensures Inv(env, Apply(env, db, s))
  {
    var db' := Apply(env, db, s);
    PlaceConserves(db, s.org, s.threshold, s.ttlNanos, s.plan, s.id, s.now);
    PlaceAges(db, s.org, s.threshold, s.ttlNanos, s.plan, s.id, s.now);
    OtherTablesKeepJobs(env, db, db');
  }

  lemma PlaceAges(db: Db, org: string, threshold: int, ttl: int, plan: Planner, id: string, now: int)
    requires id !in db.holds
    ensures var db' := After(db, PlaceHoldTx(db, org, threshold, ttl, plan, id, now));
            db'.requests == db.requests && db'.ledger == db.ledger && HoldsOnlyAge(db, db')
  {
  }

  lemma ReleaseAges(db: Db, hold: string)
    ensures var db' := After(db, SettleTx(db, hold, 0));
            && db'.requests == db.requests && db'.ledger == db.ledger && HoldsOnlyAge(db, db')
            && db'.orgs.Keys == db.orgs.Keys && db'.holds.Keys == db.holds.Keys
  {
  }

  lemma SweepAges(db: Db, orgs: set<string>, now: int)
    ensures var db' := SweepTx(db, orgs, now);
            && db'.requests == db.requests && db'.ledger == db.ledger && HoldsOnlyAge(db, db')
            && db'.orgs.Keys == db.orgs.Keys && db'.holds.Keys == db.holds.Keys
  {
  }

  lemma ReleaseKeeps(env: Env, db: Db, hold: string)
    requires Inv(env, db)
    ensures Inv(env, After(db, SettleTx(db, hold, 0)))
  {
    ReleaseConserves(db, hold);
    ReleaseAges(db, hold);
    OtherTablesKeepJobs(env, db, After(db, SettleTx(db, hold, 0)));
  }

  lemma SweepKeeps(env: Env, db: Db, orgs: set<string>, now: int)
    requires Inv(env, db)
    ensures Inv(env, SweepTx(db, orgs, now))
  {
    SweepConserves(db, orgs, now);
    SweepAges(db, orgs, now);
    OtherTablesKeepJobs(env, db, SweepTx(db, orgs, now));
  }

  lemma GrantKeepsRows(env: Env, db: Db, key: string)
    requires JobsWhole(env, db) && LedgerFaithful(env, db) && Admissible(env, db, GrantOnce(key))
    ensures var db' := After(db, GrantTx(db, env.grants[key])); JobsWhole(env, db') && LedgerFaithful(env, db')
  {
    var db' := After(db, GrantTx(db, env.grants[key]));
    forall k | k in env.jobs && env.jobs[k].key == k
      ensures JobWhole(db', env.jobs[k])
    {
      assert JobWhole(db, env.jobs[k]);
      UsageKeysAreDistinct(k, k);
    }
  }

  lemma GrantKeeps(env: Env, db: Db, key: string)
    requires Inv(env, db) && Admissible(env, db, GrantOnce(key))
    ensures Inv(env, Apply(env, db, GrantOnce(key)))
  {
    GrantConserves(db, env.grants[key]);
    GrantKeepsRows(env, db, key);
  }

  lemma BillKeeps(env: Env, db: Db, key: string)
    requires Inv(env, db) && Admissible(env, db, Bill(key))
    ensures Inv(env, Apply(env, db, Bill(key)))
  {
    var p := env.jobs[key];
    if RecordTx(db, p).Committed? {
      var db' := RecordTx(db, p).db;
      assert JobWhole(db, p);
      RecordConservesExactly(db, p);
      RecordShape(db, p);
      BillKeepsJobs(env, db, p, db');
      BillKeepsLedger(env, db, p, db');
    }
  }

  lemma BillKeepsJobs(env: Env, db: Db, p: RecordParams, db': Db)
    requires JobsWhole(env, db) && JobWhole(db, p) && RecordEffect(db, p, db')
    requires p.key in env.jobs && env.jobs[p.key] == p
    requires p.hold != "" ==> p.hold in db.holds
    ensures JobsWhole(env, db')
  {
    forall k | k in env.jobs && env.jobs[k].key == k
      ensures JobWhole(db', env.jobs[k])
    {
      assert JobWhole(db, env.jobs[k]);
      UsageKeysAreDistinct(k, p.key);
    }
  }

  lemma BillKeepsLedger(env: Env, db: Db, p: RecordParams, db': Db)
    requires LedgerFaithful(env, db) && RecordEffect(db, p, db')
    requires p.key in env.jobs && env.jobs[p.key] == p
    ensures LedgerFaithful(env, db')
  {
    UsageKeysAreDistinct(p.key, p.key);
  }

  lemma StepKeeps(env: Env, db: Db, s: Step)
    requires Inv(env, db) && Admissible(env, db, s)
    ensures Inv(env, Apply(env, db, s))
  {
    match s
    case SignUp(org) => SignUpKeeps(env, db, org);
    case Place(_, _, _, _, _, _) => PlaceKeeps(env, db, s);
    case Bill(key) => BillKeeps(env, db, key);
    case Release(hold) => ReleaseKeeps(env, db, hold);
    case Sweep(orgs, now) => SweepKeeps(env, db, orgs, now);
    case GrantOnce(key) => GrantKeeps(env, db, key);
  }

  /** In every state that any interleaving of the transactions reaches, each organization's
      granted and used credits are the sums of its ledger rows, and its remaining credits plus
      its open holds are their difference. */
  lemma {:induction false} EveryRunConserves(env: Env, db: Db, steps: seq<Step>)
    requires Inv(env, db) && ValidRun(env, db, steps)
    ensures Inv(env, Final(env, db, steps))
    decreases |steps|
  {
    if steps != [] {
      StepKeeps(env, db, steps[0]);
      EveryRunConserves(env, Apply(env, db, steps[0]), steps[1..]);
    }
  }

  lemma StepAges(env: Env, db: Db, s: Step)
    requires "" !in db.orgs && Admissible(env, db, s)
    ensures HoldsOnlyAge(db, Apply(env, db, s))
  {
    match s
    case Place(org, threshold, ttl, plan, id, now) => PlaceAges(db, org, threshold, ttl, plan, id, now);
    case Bill(key) => BillAges(db, env.jobs[key]);
    case Release(hold) => ReleaseAges(db, hold);
    case Sweep(orgs, now) => SweepAges(db, orgs, now);
    case GrantOnce(key) => GrantAges(db, env.grants[key]);
    case SignUp(_) =>
  }

  lemma BillAges(db: Db, p: RecordParams)
    requires "" !in db.orgs
    ensures HoldsOnlyAge(db, After(db, RecordTx(db, p)))
  {
    if RecordTx(db, p).Committed? {
      RecordShape(db, p);
    }
  }

  lemma GrantAges(db: Db, p: GrantParams)
    ensures After(db, GrantTx(db, p)).holds == db.holds
  {
  }

  /** Over any run a hold keeps its organization and amount, and goes from open to settled at most
      once: a settled hold is never reopened. */
  lemma {:induction false} EveryRunAges(env: Env, db: Db, steps: seq<Step>)
    requires Inv(env, db) && ValidRun(env, db, steps)
    ensures HoldsOnlyAge(db, Final(env, db, steps))
    decreases |steps|
  {
    if steps != [] {
      StepKeeps(env, db, steps[0]);
      StepAges(env, db, steps[0]);
      EveryRunAges(env, Apply(env, db, steps[0]), steps[1..]);
    }
  }
}
