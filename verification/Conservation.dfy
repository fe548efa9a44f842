/** What each transaction does to the balance equation of every organization. */
module Conservation {
  import opened Sums
  import opened Ledger

  /** What the schema's constraints keep: identifiers are not empty, foreign keys resolve,
      amounts are positive. */
  ghost predicate WellFormed(db: Db) {
    && "" !in db.orgs
    && "" !in db.holds
    && (forall h :: h in db.holds ==> db.holds[h].org in db.orgs && db.holds[h].amount >= 1)
    && (forall k :: k in db.ledger ==> db.ledger[k].org in db.orgs && db.ledger[k].amount >= 1)
  }

  /* ----- How single table updates move the sums ----- */

  lemma LedgerInsert(db: Db, key: string, e: Entry, o: string, kind: EntryType)
    requires key !in db.ledger
    ensures LedgerSum(db.(ledger := db.ledger[key := e]), o, kind)
            == LedgerSum(db, o, kind) + (if e.org == o && e.kind == kind then e.amount else 0)
  {
    var db' := db.(ledger := db.ledger[key := e]);
    if e.org == o && e.kind == kind {
      assert Entries(db', o, kind) == Entries(db, o, kind)[key := e.amount];
      SumInsert(Entries(db, o, kind), key, e.amount);
    } else {
      assert Entries(db', o, kind) == Entries(db, o, kind);
    }
  }

  lemma HoldInsert(db: Db, id: string, h: Hold, o: string)
    requires id !in db.holds && !h.settled
    ensures Frozen(db.(holds := db.holds[id := h]), o) == Frozen(db, o) + (if h.org == o then h.amount else 0)
  {
    var db' := db.(holds := db.holds[id := h]);
    if h.org == o {
      assert OpenHolds(db', o) == OpenHolds(db, o)[id := h.amount];
      SumInsert(OpenHolds(db, o), id, h.amount);
    } else {
      assert OpenHolds(db', o) == OpenHolds(db, o);
    }
  }

  lemma HoldSettled(db: Db, id: string, o: string)
    requires id in db.holds && !db.holds[id].settled
    ensures Frozen(db.(holds := db.holds[id := db.holds[id].(settled := true)]), o)
            == Frozen(db, o) - (if db.holds[id].org == o then db.holds[id].amount else 0)
  {
    var db' := db.(holds := db.holds[id := db.holds[id].(settled := true)]);
    if db.holds[id].org == o {
      assert OpenHolds(db', o) == OpenHolds(db, o) - {id};
      SumRemove(OpenHolds(db, o), id);
    } else {
      assert OpenHolds(db', o) == OpenHolds(db, o);
    }
  }

  lemma SameTables(a: Db, b: Db, o: string)
    ensures a.holds == b.holds ==> Frozen(a, o) == Frozen(b, o)
    ensures a.ledger == b.ledger ==> forall kind :: LedgerSum(a, o, kind) == LedgerSum(b, o, kind)
  {
    if a.holds == b.holds {
      assert OpenHolds(a, o) == OpenHolds(b, o);
    }
    if a.ledger == b.ledger {
      forall kind ensures LedgerSum(a, o, kind) == LedgerSum(b, o, kind) {
        assert Entries(a, o, kind) == Entries(b, o, kind);
      }
    }
  }

  /* ----- Sweeping ----- */

  /** A sweep moves exactly the expired holds' amounts from the frozen side to the free side. */
  lemma SweepMoves(db: Db, orgs: set<string>, now: int, o: string)
    ensures Frozen(SweepTx(db, orgs, now), o)
            == Frozen(db, o) - (if o in orgs then Sum(ExpiredHolds(db, o, now)) else 0)
  {
    var db' := SweepTx(db, orgs, now);
    if o in orgs {
      var expired := ExpiredHolds(db, o, now);
      SumSplit(OpenHolds(db, o), expired);
      assert OpenHolds(db', o) == OpenHolds(db, o) - expired.Keys;
    } else {
      assert OpenHolds(db', o) == OpenHolds(db, o);
    }
  }

  lemma SweepConserves(db: Db, orgs: set<string>, now: int)
    ensures WellFormed(db) ==> WellFormed(SweepTx(db, orgs, now))
    ensures Conserved(db) <==> Conserved(SweepTx(db, orgs, now))
  {
    var db' := SweepTx(db, orgs, now);
    forall o | o in db.orgs
      ensures Balanced(db, o) <==> Balanced(db', o)
    {
      SweepMoves(db, orgs, now, o);
      SameTables(db, db', o);
    }
    assert db'.orgs.Keys == db.orgs.Keys;
  }

  /** Sweeping organization after organization is the same as sweeping them at once. */
  lemma SweepExtends(db: Db, orgs: set<string>, o: string, now: int)
    requires o !in orgs
    ensures SweepTx(SweepTx(db, orgs, now), {o}, now) == SweepTx(db, orgs + {o}, now)
  {
    var mid := SweepTx(db, orgs, now);
    assert ExpiredHolds(mid, o, now) == ExpiredHolds(db, o, now);
    assert SweepTx(mid, {o}, now).holds == SweepTx(db, orgs + {o}, now).holds;
    assert SweepTx(mid, {o}, now).orgs == SweepTx(db, orgs + {o}, now).orgs;
  }

  /* ----- Placing ----- */

  /** A committed hold, table by table: the expired holds come back, the new one goes out. */
  ghost predicate PlaceEffect(db: Db, org: string, id: string, now: int, h: Hold, db': Db) {
    var swept := SweepTx(db, {org}, now);
    && h.org == org && !h.settled && h.amount >= 1
    && org in db.orgs
    && swept.orgs[org].remaining >= h.amount
    && db'.holds == swept.holds[id := h]
    && db'.orgs == swept.orgs[org := swept.orgs[org].(remaining := swept.orgs[org].remaining - h.amount)]
    && db'.ledger == db.ledger
    && db'.requests == db.requests
  }

  lemma PlaceShape(db: Db, org: string, threshold: int, ttl: int, plan: Planner, id: string, now: int)
    requires PlaceHoldTx(db, org, threshold, ttl, plan, id, now).Committed?
    ensures var db' := PlaceHoldTx(db, org, threshold, ttl, plan, id, now).db;
            id in db'.holds && PlaceEffect(db, org, id, now, db'.holds[id], db')
  {
  }

  lemma PlaceBalances(db: Db, org: string, id: string, now: int, h: Hold, db': Db, o: string)
    requires PlaceEffect(db, org, id, now, h, db')
    requires id !in db.holds && o in db.orgs && Balanced(db, o)
    ensures o in db'.orgs && Balanced(db', o)
  {
    var swept := SweepTx(db, {org}, now);
    SweepMoves(db, {org}, now, o);
    HoldInsert(swept, id, h, o);
    SameTables(swept.(holds := db'.holds), db', o);
    SameTables(db, db', o);
  }

  lemma PlaceConserves(db: Db, org: string, threshold: int, ttl: int, plan: Planner, id: string, now: int)
    requires WellFormed(db) && Conserved(db)
    requires id !in db.holds && id != ""
    ensures var db' := After(db, PlaceHoldTx(db, org, threshold, ttl, plan, id, now));
            WellFormed(db') && Conserved(db')
  {
    var outcome := PlaceHoldTx(db, org, threshold, ttl, plan, id, now);
    if outcome.Committed? {
      PlaceShape(db, org, threshold, ttl, plan, id, now);
      PlaceKeepsAll(db, org, id, now, outcome.db.holds[id], outcome.db);
    }
  }

  lemma PlaceKeepsAll(db: Db, org: string, id: string, now: int, h: Hold, db': Db)
    requires WellFormed(db) && Conserved(db)
    requires id !in db.holds && id != ""
    requires PlaceEffect(db, org, id, now, h, db')
    ensures WellFormed(db') && Conserved(db')
  {
    PlaceWellFormed(db, org, id, now, h, db');
    forall o | o in db'.orgs
      ensures Balanced(db', o)
    {
      assert Balanced(db, o);
      PlaceBalances(db, org, id, now, h, db', o);
    }
  }

  lemma PlaceWellFormed(db: Db, org: string, id: string, now: int, h: Hold, db': Db)
    requires WellFormed(db) && id != "" && PlaceEffect(db, org, id, now, h, db')
    ensures WellFormed(db') && db'.orgs.Keys == db.orgs.Keys
  {
  }

  /* ----- Granting ----- */

  lemma GrantBalances(db: Db, p: GrantParams, o: string)
    requires o in db.orgs && Balanced(db, o) && GrantTx(db, p).Committed?
    ensures Balanced(GrantTx(db, p).db, o)
  {
    var db' := GrantTx(db, p).db;
    if db' != db {
      LedgerInsert(db, p.key, db'.ledger[p.key], o, Grant);
      LedgerInsert(db, p.key, db'.ledger[p.key], o, Usage);
      SameTables(db.(ledger := db'.ledger), db', o);
      SameTables(db, db', o);
    }
  }

  lemma GrantConserves(db: Db, p: GrantParams)
    requires WellFormed(db) && Conserved(db)
    ensures var db' := After(db, GrantTx(db, p));
            WellFormed(db') && Conserved(db')
  {
    var outcome := GrantTx(db, p);
    if outcome.Committed? {
      forall o | o in outcome.db.orgs
        ensures Balanced(outcome.db, o)
      {
        GrantBalances(db, p, o);
      }
    }
  }

  /* ----- Releasing ----- */

  /** Settling with a spend of zero is a full refund and always conserves. */
  lemma ReleaseConserves(db: Db, hold: string)
    requires WellFormed(db) && Conserved(db)
    ensures var db' := After(db, SettleTx(db, hold, 0));
            WellFormed(db') && Conserved(db')
  {
    var db' := After(db, SettleTx(db, hold, 0));
    if db' != db {
      forall o | o in db.orgs
        ensures Balanced(db', o)
      {
        assert Balanced(db, o);
        HoldSettled(db, hold, o);
        SameTables(db.(holds := db'.holds), db', o);
        SameTables(db, db', o);
      }
    }
  }

  /* ----- Recording ----- */

  /** What the caller of Record has to know of the tables for the balances to stay true. */
  predicate RecordSafe(db: Db, p: RecordParams) {
    var inserts := InsertsUsage(db, p);
    || p.hold == ""
    || (if p.hold !in db.holds then !inserts
        else
          var h := db.holds[p.hold];
          if h.settled then inserts ==> h.org == p.org
          else Actual(p) > 0 ==> inserts && h.org == p.org)
  }

  /** What one committed Record takes from an organization's credits. */
  function SpentOn(db: Db, p: RecordParams, o: string): int {
    if p.hold == "" then
      if InsertsUsage(db, p) && p.org == o then p.amount else 0
    else if p.hold in db.holds && db.holds[p.hold].org == o then
      if !db.holds[p.hold].settled then (if Actual(p) < 0 then 0 else Actual(p))
      else if InsertsUsage(db, p) then p.amount else 0
    else 0
  }

  /** What the usage row that one Record writes adds to an organization's ledger. */
  function UsageRowOn(db: Db, p: RecordParams, o: string): int {
    if InsertsUsage(db, p) && p.org == o then p.amount else 0
  }

  /** The part of an open hold that a committed Record gives back before it takes the spend. */
  function Returned(db: Db, p: RecordParams, o: string): int {
    if p.hold != "" && p.hold in db.holds && !db.holds[p.hold].settled && db.holds[p.hold].org == o
    then db.holds[p.hold].amount else 0
  }

  /** A committed Record, table by table. */
  ghost predicate RecordEffect(db: Db, p: RecordParams, db': Db) {
    && db'.requests == WithRequest(db, p).requests
    && db'.ledger == (if InsertsUsage(db, p) then db.ledger[UsageKey(p.key) := Entry(p.org, Usage, p.amount)] else db.ledger)
    && db'.holds == (if p.hold != "" && p.hold in db.holds && !db.holds[p.hold].settled
                     then db.holds[p.hold := db.holds[p.hold].(settled := true)] else db.holds)
    && db'.orgs.Keys == db.orgs.Keys
    && (forall o :: o in db.orgs ==>
          db'.orgs[o] == Org(db.orgs[o].granted,
                             db.orgs[o].used + SpentOn(db, p, o),
                             db.orgs[o].remaining + Returned(db, p, o) - SpentOn(db, p, o)))
    && (InsertsUsage(db, p) ==> p.org in db.orgs)
  }

  lemma RecordShape(db: Db, p: RecordParams)
    requires "" !in db.orgs && RecordTx(db, p).Committed?
    ensures RecordEffect(db, p, RecordTx(db, p).db)
  {
    var logged := WithUsage(WithRequest(db, p), p);
    assert logged.holds == db.holds && logged.orgs == db.orgs;
    if p.hold == "" {
    } else if p.hold !in db.holds {
    } else if db.holds[p.hold].settled {
    } else {
    }
  }

  lemma RecordBalances(db: Db, p: RecordParams, db': Db, o: string)
    requires RecordEffect(db, p, db') && o in db.orgs && Balanced(db, o)
    ensures Balanced(db', o)
            <==> SpentOn(db, p, o) == UsageRowOn(db, p, o)
  {
    RecordLedger(db, p, db', o);
    RecordFrozen(db, p, db', o);
  }

  lemma RecordLedger(db: Db, p: RecordParams, db': Db, o: string)
    requires RecordEffect(db, p, db')
    ensures LedgerSum(db', o, Grant) == LedgerSum(db, o, Grant)
    ensures LedgerSum(db', o, Usage) == LedgerSum(db, o, Usage) + UsageRowOn(db, p, o)
  {
    if InsertsUsage(db, p) {
      LedgerInsert(db, UsageKey(p.key), Entry(p.org, Usage, p.amount), o, Usage);
      LedgerInsert(db, UsageKey(p.key), Entry(p.org, Usage, p.amount), o, Grant);
      SameTables(db.(ledger := db'.ledger), db', o);
    } else {
      SameTables(db, db', o);
    }
  }

  lemma RecordFrozen(db: Db, p: RecordParams, db': Db, o: string)
    requires RecordEffect(db, p, db')
    ensures Frozen(db', o) == Frozen(db, o) - Returned(db, p, o)
  {
    if p.hold != "" && p.hold in db.holds && !db.holds[p.hold].settled {
      HoldSettled(db, p.hold, o);
      SameTables(db.(holds := db'.holds), db', o);
    } else {
      SameTables(db, db', o);
    }
  }

  /** Record keeps every balance true if and only if its hold row exists when it writes a usage
      row, belongs to the same organization, and no usage row of this key predates an open hold. */
  lemma RecordConservesExactly(db: Db, p: RecordParams)
    requires WellFormed(db) && Conserved(db) && RecordTx(db, p).Committed?
    ensures WellFormed(RecordTx(db, p).db)
    ensures Conserved(RecordTx(db, p).db) <==> RecordSafe(db, p)
  {
    RecordShape(db, p);
    RecordEffectExact(db, p, RecordTx(db, p).db);
  }

  lemma RecordEffectExact(db: Db, p: RecordParams, db': Db)
    requires WellFormed(db) && Conserved(db) && RecordEffect(db, p, db')
    ensures WellFormed(db')
    ensures Conserved(db') <==> RecordSafe(db, p)
  {
    RecordWellFormed(db, p, db');
    RecordSafeIsBalance(db, p);
    forall o | o in db.orgs
      ensures Balanced(db', o) <==> SpentOn(db, p, o) == UsageRowOn(db, p, o)
    {
      assert Balanced(db, o);
      RecordBalances(db, p, db', o);
    }
  }

  lemma RecordWellFormed(db: Db, p: RecordParams, db': Db)
    requires WellFormed(db) && RecordEffect(db, p, db')
    ensures WellFormed(db')
  {
  }

  lemma RecordSafeIsBalance(db: Db, p: RecordParams)
    requires WellFormed(db) && (InsertsUsage(db, p) ==> p.org in db.orgs)
    ensures RecordSafe(db, p)
            <==> forall o :: o in db.orgs ==> SpentOn(db, p, o) == UsageRowOn(db, p, o)
  {
    if !RecordSafe(db, p) {
      var o := if p.hold !in db.holds then p.org else db.holds[p.hold].org;
      assert o in db.orgs;
    }
  }
}
