/** How long a placed hold lives, in microseconds, and what the sweeper finds. */
module HoldExpiry {
  import opened Ledger
  import opened Conservation
  import opened CreditRuns

  /** The whole seconds of a time to live; one of less than a second counts as a minute. */
  predicate Lasts(ttlNanos: int, seconds: int) {
    if ttlNanos < 1_000_000_000 then seconds == 60
    else seconds * 1_000_000_000 <= ttlNanos < (seconds + 1) * 1_000_000_000
  }

  lemma LastsUntil(now: int, ttlNanos: int, seconds: int)
    requires Lasts(ttlNanos, seconds)
    ensures ExpiresAt(now, ttlNanos) == now + 1_000_000 * seconds
  {
    if ttlNanos >= 1_000_000_000 {
      assert ttlNanos / 1_000_000_000 == seconds;
    }
  }

  /** A hold that was just placed is open until its time is up: a sweep settles it if and only if it
      covers its organization and comes later than that. */
  lemma HoldLivesItsTtl(db: Db, org: string, threshold: int, ttl: int, plan: Planner, id: string, now: int,
                        seconds: int, orgs: set<string>, t: int)
    requires PlaceHoldTx(db, org, threshold, ttl, plan, id, now).Committed? && Lasts(ttl, seconds)
    ensures var placed := PlaceHoldTx(db, org, threshold, ttl, plan, id, now).db;
            && id in placed.holds && !placed.holds[id].settled
            && id in SweepTx(placed, orgs, t).holds
            && (SweepTx(placed, orgs, t).holds[id].settled <==> org in orgs && t > now + 1_000_000 * seconds)
  {
    LastsUntil(now, ttl, seconds);
  }

  /** The step neither settles the hold by name nor reclaims its organization's holds after the
      given instant. */
  predicate Spares(env: Env, s: Step, id: string, org: string, until: int) {
    match s
    case Release(hold) => hold != id
    case Bill(key) => key in env.jobs ==> env.jobs[key].hold != id
    case Sweep(orgs, t) => org in orgs ==> t <= until
    case Place(o, _, _, _, _, t) => o == org ==> t <= until
    case _ => true
  }

  lemma PlaceSpares(db: Db, s: Step, id: string)
    requires s.Place? && s.id !in db.holds && id in db.holds
    requires db.holds[id].org == s.org ==> s.now <= db.holds[id].expires
    ensures var db' := After(db, PlaceHoldTx(db, s.org, s.threshold, s.ttlNanos, s.plan, s.id, s.now));
            id in db'.holds && db'.holds[id] == db.holds[id]
  {
    hide ExpiredHolds, ExpiresAt;
  }

  lemma BillSpares(db: Db, p: RecordParams, id: string)
    requires "" !in db.orgs && id in db.holds && p.hold != id
    ensures id in After(db, RecordTx(db, p)).holds && After(db, RecordTx(db, p)).holds[id] == db.holds[id]
  {
    if RecordTx(db, p).Committed? {
      RecordShape(db, p);
    }
    hide RecordTx;
  }

  lemma SweepSpares(db: Db, orgs: set<string>, now: int, id: string)
    requires id in db.holds && (db.holds[id].org in orgs ==> now <= db.holds[id].expires)
    ensures id in SweepTx(db, orgs, now).holds && SweepTx(db, orgs, now).holds[id] == db.holds[id]
  {
    hide ExpiredHolds;
  }

  lemma ReleaseSpares(db: Db, hold: string, id: string)
    requires id in db.holds && hold != id
    ensures id in After(db, SettleTx(db, hold, 0)).holds && After(db, SettleTx(db, hold, 0)).holds[id] == db.holds[id]
  {
  }

  lemma StepSpares(env: Env, db: Db, s: Step, id: string)
    requires Inv(env, db) && Admissible(env, db, s) && id in db.holds && !db.holds[id].settled
    requires Spares(env, s, id, db.holds[id].org, db.holds[id].expires)
    ensures id in Apply(env, db, s).holds && Apply(env, db, s).holds[id] == db.holds[id]
  {
    assert "" !in db.orgs;
    hide Inv, RecordTx, PlaceHoldTx, SettleTx, SweepTx, After;
    match s
    case SignUp(_) =>
    case Bill(key) => BillSpares(db, env.jobs[key], id);
    case Place(_, _, _, _, _, _) => PlaceSpares(db, s, id);
    case Release(hold) => ReleaseSpares(db, hold, id);
    case Sweep(orgs, now) => SweepSpares(db, orgs, now, id);
    case GrantOnce(key) => GrantAges(db, env.grants[key]);
  }

  lemma {:induction false} RunSpares(env: Env, db: Db, steps: seq<Step>, id: string)
    requires Inv(env, db) && ValidRun(env, db, steps) && id in db.holds && !db.holds[id].settled
    requires forall s :: s in steps ==> Spares(env, s, id, db.holds[id].org, db.holds[id].expires)
    ensures id in Final(env, db, steps).holds && Final(env, db, steps).holds[id] == db.holds[id]
    decreases |steps|
  {
    if steps != [] {
      hide Spares, Inv, Apply, Admissible;
      assert steps[0] in steps;
      StepSpares(env, db, steps[0], id);
      StepKeeps(env, db, steps[0]);
      RunSpares(env, Apply(env, db, steps[0]), steps[1..], id);
    }
  }

  /** Over every run: a call in progress keeps its hold. Nothing but its own settlement, or a reclaim
      after its time is up, takes it away; and the first reclaim after that does. */
  lemma HoldOutlivesRun(env: Env, db: Db, org: string, threshold: int, ttl: int, plan: Planner, id: string, now: int,
                        seconds: int, steps: seq<Step>)
    requires PlaceHoldTx(db, org, threshold, ttl, plan, id, now).Committed? && Lasts(ttl, seconds)
    requires var placed := PlaceHoldTx(db, org, threshold, ttl, plan, id, now).db;
             Inv(env, placed) && ValidRun(env, placed, steps)
    requires forall s :: s in steps ==> Spares(env, s, id, org, now + 1_000_000 * seconds)
    ensures var end := Final(env, PlaceHoldTx(db, org, threshold, ttl, plan, id, now).db, steps);
            && id in end.holds && !end.holds[id].settled && end.holds[id].org == org
            && end.holds[id].amount == PlaceHoldTx(db, org, threshold, ttl, plan, id, now).value.amount
            && (forall orgs, t :: id in SweepTx(end, orgs, t).holds
                  && (SweepTx(end, orgs, t).holds[id].settled <==> org in orgs && t > now + 1_000_000 * seconds))
  {
    var placed := PlaceHoldTx(db, org, threshold, ttl, plan, id, now).db;
    LastsUntil(now, ttl, seconds);
    RunSpares(env, placed, steps, id);
    hide Final, ExpiresAt;
  }

  /* ----- What the sweeper finds ----- */

  /** One pass of the sweeper settles every hold that has expired, except where its organization is
      locked by somebody else, and no other. */
  lemma SweeperSettlesExactly(db: Db, locked: set<string>, now: int)
    requires WellFormed(db)
    ensures var swept := SweepTx(db, ExpiredOrgs(db, now) - locked, now);
            && swept.holds.Keys == db.holds.Keys
            && forall h :: h in db.holds ==>
                 (swept.holds[h].settled
                  <==> db.holds[h].settled || (db.holds[h].org !in locked && db.holds[h].expires < now))
  {
    forall h | h in db.holds && !db.holds[h].settled && db.holds[h].expires < now
      ensures db.holds[h].org in ExpiredOrgs(db, now)
    {
      assert Expired(db.holds[h], now);
    }
  }
}
