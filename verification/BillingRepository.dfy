/** The billing repository: each method runs one transaction on the tables in place, statement by
    statement, and restores them when it has to roll back. */
module BillingRepository {
  import opened Wrappers
  import opened Sums
  import opened Ledger
  import opened Conservation

  class Repository {
    var orgs: map<string, Org>
    var holds: map<string, Hold>
    var requests: map<string, Request>
    var ledger: map<string, Entry>

    function Tables(): Db
      reads this
    {
      Db(orgs, holds, requests, ledger)
    }

    constructor ()
      ensures Tables() == Db(map[], map[], map[], map[])
    {
      orgs, holds, requests, ledger := map[], map[], map[], map[];
    }

    method Rollback(begin: Db)
      modifies this
      ensures Tables() == begin
    {
      orgs, holds, requests, ledger := begin.orgs, begin.holds, begin.requests, begin.ledger;
    }

    /** Settles the organization's expired holds, returns their sum to its balance and counts them. */
    method ReclaimExpiredHoldsTxCount(org: string, now: int) returns (n: nat)
      requires org in orgs
      modifies this
      ensures Tables() == SweepTx(old(Tables()), {org}, now)
      ensures n == |ExpiredIn(old(Tables()), {org}, now)|
    {
      var expired := ExpiredHolds(Tables(), org, now);
      n := |expired.Keys|;
      var total := AddUp(expired);
      holds := map h | h in holds :: if h in expired then holds[h].(settled := true) else holds[h];
      orgs := orgs[org := orgs[org].(remaining := orgs[org].remaining + total)];
      SweepOne(old(Tables()), org, now);
    }

    /** The identifier is the fresh one the database generates for the inserted row. */
    method PlaceHold(org: string, threshold: int, ttlNanos: int, plan: Planner, id: string, now: int)
      returns (r: Result<PlacedHold, TxError>)
      modifies this
      ensures Tables() == After(old(Tables()), PlaceHoldTx(old(Tables()), org, threshold, ttlNanos, plan, id, now))
      ensures r == Reply(PlaceHoldTx(old(Tables()), org, threshold, ttlNanos, plan, id, now))
    {
      if org == "" {
        return Err(OrganizationRequired);
      }
      var begin := Tables();
      if org !in orgs {
        return Err(InsufficientCredits);
      }
      var _ := ReclaimExpiredHoldsTxCount(org, now);
      var remaining := orgs[org].remaining;
      var planned := plan(remaining);
      if planned.Err? {
        Rollback(begin);
        return Err(PlanRefused(planned.error));
      }
      var amount, maxTokens := planned.value.amount, planned.value.maxTokens;
      if amount < 1 || maxTokens < 1 {
        Rollback(begin);
        return Err(InsufficientCredits);
      }
      if !(orgs[org].remaining >= amount && orgs[org].remaining >= threshold) {
        Rollback(begin);
        return Err(InsufficientCredits);
      }
      orgs := orgs[org := orgs[org].(remaining := orgs[org].remaining - amount)];
      holds := holds[id := Hold(org, amount, ExpiresAt(now, ttlNanos), false)];
      r := Ok(PlacedHold(id, amount, maxTokens, org, remaining, remaining - amount));
    }

    method SettleHoldTx(hold: string, actualMicros: int) returns (r: Result<SettleResult, TxError>)
      modifies this
      ensures Tables() == After(old(Tables()), SettleTx(old(Tables()), hold, actualMicros))
      ensures r == Reply(SettleTx(old(Tables()), hold, actualMicros))
    {
      if hold == "" {
        return Ok(NothingSettled);
      }
      var actual := actualMicros;
      if actual < 0 {
        actual := 0;
      }
      if hold !in holds {
        return Ok(NothingSettled);
      }
      var org := holds[hold].org;
      if org !in orgs {
        return Err(OrganizationMissing);
      }
      var remaining := orgs[org].remaining;
      var amount := holds[hold].amount;
      if holds[hold].settled {
        return Ok(SettleResult(true, false, org, amount, actual, 0, remaining, 0));
      }
      holds := holds[hold := holds[hold].(settled := true)];
      orgs := orgs[org := orgs[org].(remaining := orgs[org].remaining + amount - actual, used := orgs[org].used + actual)];
      r := Ok(SettleResult(true, true, org, amount, actual, amount - actual, remaining, remaining + amount - actual));
    }

    method DebitUsageTx(org: string, amount: int)
      modifies this
      ensures Tables() == Debit(old(Tables()), org, amount)
    {
      if org == "" || amount <= 0 {
        return;
      }
      if org in orgs {
        orgs := orgs[org := orgs[org].(used := orgs[org].used + amount, remaining := orgs[org].remaining - amount)];
      }
    }

    method ReleaseHold(hold: string) returns (r: Result<SettleResult, TxError>)
      modifies this
      ensures Tables() == After(old(Tables()), SettleTx(old(Tables()), hold, 0))
      ensures r == Reply(SettleTx(old(Tables()), hold, 0))
    {
      if hold == "" {
        return Ok(NothingSettled);
      }
      r := SettleHoldTx(hold, 0);
    }

    /** One pass of the sweeper over the organizations whose rows no other transaction has locked. */
    method ReleaseExpiredHolds(lockedElsewhere: set<string>, now: int) returns (released: nat)
      modifies this
      ensures var mine := ExpiredOrgs(old(Tables()), now) - lockedElsewhere;
              SweptTo(old(Tables()), mine, now, Tables(), released)
    {
      ghost var db := Tables();
      var orgIDs := ExpiredOrgs(Tables(), now) - lockedElsewhere;
      var todo := orgIDs;
      released := 0;
      SweepNothing(db, now);
      while todo != {}
        invariant todo <= orgIDs <= db.orgs.Keys
        invariant SweptTo(db, orgIDs - todo, now, Tables(), released)
        decreases todo
      {
        var org :| org in todo;
        ghost var before, done := Tables(), orgIDs - todo;
        var n := ReclaimExpiredHoldsTxCount(org, now);
        SweptFurther(db, done, org, now, before, released, n);
        released := released + n;
        OneFewer(orgIDs, todo, org);
        todo := todo - {org};
      }
      assert orgIDs - {} == orgIDs;
    }

    method ReclaimExpiredForOrg(org: string, now: int) returns (r: Result<(), TxError>)
      modifies this
      ensures Tables() == if org in old(orgs) && org != "" then SweepTx(old(Tables()), {org}, now) else old(Tables())
      ensures r == if org == "" || org in old(orgs) then Ok(()) else Err(InsufficientCredits)
    {
      if org == "" {
        return Ok(());
      }
      if org !in orgs {
        return Err(InsufficientCredits);
      }
      var _ := ReclaimExpiredHoldsTxCount(org, now);
      r := Ok(());
    }

    method Record(p: RecordParams) returns (r: Result<SettleResult, TxError>)
      modifies this
      ensures Tables() == After(old(Tables()), RecordTx(old(Tables()), p))
      ensures r == Reply(RecordTx(old(Tables()), p))
    {
      var begin := Tables();
      if p.key == "" {
        return Err(KeyRequired);
      }
      if p.key !in requests {
        if p.org !in orgs {
          return Err(ForeignKey);
        }
        requests := requests[p.key := Request(p.org, p.status, p.inputTokens, p.outputTokens)];
      }
      var ledgerInserted := 0;
      if p.amount > 0 && p.status == Success {
        if UsageKey(p.key) !in ledger {
          if p.org !in orgs {
            Rollback(begin);
            return Err(ForeignKey);
          }
          ledger := ledger[UsageKey(p.key) := Entry(p.org, Usage, p.amount)];
          ledgerInserted := 1;
        }
      }
      var actual := p.amount;
      if p.status != Success {
        actual := 0;
      }
      if p.hold != "" {
        r := SettleHoldTx(p.hold, actual);
        if r.Err? {
          Rollback(begin);
          return;
        }
        if !r.value.applied && r.value.found && ledgerInserted > 0 && actual > 0 {
          DebitUsageTx(r.value.org, actual);
        }
      } else {
        r := Ok(NothingSettled);
        if ledgerInserted > 0 {
          DebitUsageTx(p.org, p.amount);
        }
      }
    }

    method GrantCredits(p: GrantParams) returns (r: Result<(), TxError>)
      modifies this
      ensures Tables() == After(old(Tables()), GrantTx(old(Tables()), p))
      ensures r == Reply(GrantTx(old(Tables()), p))
    {
      if p.key == "" {
        return Err(KeyRequired);
      }
      if p.amount <= 0 {
        return Err(AmountNotPositive);
      }
      if p.key in ledger {
        return Ok(());
      }
      if p.org !in orgs {
        return Err(ForeignKey);
      }
      ledger := ledger[p.key := Entry(p.org, Grant, p.amount)];
      orgs := orgs[p.org := orgs[p.org].(granted := orgs[p.org].granted + p.amount,
                                         remaining := orgs[p.org].remaining + p.amount)];
      r := Ok(());
    }
  }

  lemma SweepOne(db: Db, org: string, now: int)
    requires org in db.orgs
    ensures var expired := ExpiredHolds(db, org, now);
            && SweepTx(db, {org}, now) == db.(
                 holds := map h | h in db.holds :: if h in expired then db.holds[h].(settled := true) else db.holds[h],
                 orgs := db.orgs[org := db.orgs[org].(remaining := db.orgs[org].remaining + Sum(expired))])
            && expired.Keys == ExpiredIn(db, {org}, now)
  {
    var expired := ExpiredHolds(db, org, now);
    assert SweepTx(db, {org}, now).holds == map h | h in db.holds :: if h in expired then db.holds[h].(settled := true) else db.holds[h];
    assert SweepTx(db, {org}, now).orgs == db.orgs[org := db.orgs[org].(remaining := db.orgs[org].remaining + Sum(expired))];
  }

  lemma OneFewer<T>(all: set<T>, todo: set<T>, x: T)
    requires x in todo && todo <= all
    ensures all - (todo - {x}) == all - todo + {x}
  {
  }

  /** The organizations of a set are swept and their expired holds counted. */
  ghost predicate SweptTo(db: Db, done: set<string>, now: int, tables: Db, released: nat) {
    && tables == SweepTx(db, done, now)
    && tables.orgs.Keys == db.orgs.Keys
    && released == |ExpiredIn(db, done, now)|
  }

  lemma SweepNothing(db: Db, now: int)
    ensures SweptTo(db, {}, now, db, 0)
  {
    assert SweepTx(db, {}, now).orgs == db.orgs && SweepTx(db, {}, now).holds == db.holds;
    assert ExpiredIn(db, {}, now) == {};
  }

  lemma SweptFurther(db: Db, done: set<string>, o: string, now: int, tables: Db, released: nat, n: nat)
    requires o !in done && SweptTo(db, done, now, tables, released)
    requires n == |ExpiredIn(tables, {o}, now)|
    ensures SweptTo(db, done + {o}, now, SweepTx(tables, {o}, now), released + n)
  {
    SweepExtends(db, done, o, now);
    CountExtends(db, done, o, now);
  }

  lemma CountExtends(db: Db, orgs: set<string>, o: string, now: int)
    requires o !in orgs
    ensures |ExpiredIn(SweepTx(db, orgs, now), {o}, now)| + |ExpiredIn(db, orgs, now)| == |ExpiredIn(db, orgs + {o}, now)|
  {
    assert ExpiredIn(SweepTx(db, orgs, now), {o}, now) == ExpiredIn(db, {o}, now);
    assert ExpiredIn(db, {o}, now) !! ExpiredIn(db, orgs, now);
    assert ExpiredIn(db, orgs + {o}, now) == ExpiredIn(db, {o}, now) + ExpiredIn(db, orgs, now);
  }
}
