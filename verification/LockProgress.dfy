/** Every transaction of the interleaved machine comes to its end, and which locks it waits for on the
    way. */
module LockProgress {
  import opened Sums
  import opened Ledger
  import opened CreditRuns
  import opened LockProtocol

  /** The most statements that a transaction still has before it, when there are so many
      organizations. */
  function Left(orgs: nat, t: Txn): nat {
    match t.pc
    case Start => orgs + 6
    case Found(_) => 5
    case Locked(_) => 4
    case Held(_) => 3
    case Marked(_) => 2
    case Sweeping(todo) => |todo| + 3
    case Debited(_) => 2
    case Inserted(_) => 1
    case Settled(_) => 1
    case Done => 0
  }

  lemma {:induction false} FewerMembers(a: set<string>, b: set<string>)
    requires a <= b
    ensures |a| <= |b|
    decreases |a|
  {
    if x :| x in a {
      FewerMembers(a - {x}, b - {x});
    }
  }

  lemma ExpiredOrgsExist(db: Db, now: int)
    ensures ExpiredOrgs(db, now) <= db.orgs.Keys
  {
  }

  lemma StartAdvances(db: Db, t: Txn, taken: Locks, pick: string)
    requires t.pc.Start? && Statement(db, t, taken, pick).Continue?
    ensures Left(|db.orgs|, Statement(db, t, taken, pick).next) < Left(|db.orgs|, t)
  {
    if t.op.SweepOp? {
      ExpiredOrgsExist(db, t.op.now);
    }
    hide Needs, Clash, Asks, See, ExpiredOrgs, ReclaimOne, NowOf, ExpiresAt;
    var next := Statement(db, t, taken, pick).next;
    assert next.pc.Found? || (next.pc.Sweeping? && next.pc.todo <= db.orgs.Keys);
    if next.pc.Sweeping? {
      FewerMembers(next.pc.todo, db.orgs.Keys);
      assert |db.orgs.Keys| == |db.orgs|;
    }
  }

  lemma LaterAdvances(orgs: nat, db: Db, t: Txn, taken: Locks, pick: string)
    requires !t.pc.Start? && Statement(db, t, taken, pick).Continue?
    ensures Left(orgs, Statement(db, t, taken, pick).next) < Left(orgs, t)
  {
    hide See, Needs, Clash, Asks;
  }

  lemma StatementAdvances(db: Db, t: Txn, taken: Locks, pick: string)
    requires Statement(db, t, taken, pick).Continue?
    ensures Left(|db.orgs|, Statement(db, t, taken, pick).next) < Left(|db.orgs|, t)
  {
    hide Statement, Left;
    if t.pc.Start? {
      StartAdvances(db, t, taken, pick);
    } else {
      LaterAdvances(|db.orgs|, db, t, taken, pick);
    }
  }

  lemma WritesStayAtHome(db: Db, t: Txn)
    requires TxnOk(db, t)
    ensures See(db, t).orgs.Keys == db.orgs.Keys
  {
    WritesAreLocked(db, t);
  }

  lemma FinishedHasNothingLeft(orgs: nat, t: Txn)
    ensures Left(orgs, Finished(t)) == 0
    ensures !t.pc.Done? ==> Left(orgs, t) > 0
  {
  }

  lemma StepAdvances(s: System, tid: nat, pick: string)
    requires SystemOk(s) && CanStep(s, tid, pick)
    ensures Next(s, tid, pick).db.orgs.Keys == s.db.orgs.Keys
    ensures tid in s.txns && tid in Next(s, tid, pick).txns
    ensures Next(s, tid, pick).txns == s.txns[tid := Next(s, tid, pick).txns[tid]]
    ensures Left(|s.db.orgs|, Next(s, tid, pick).txns[tid]) < Left(|s.db.orgs|, s.txns[tid])
  {
    hide TxnOk, Statement, Taken, See, Left;
    var t, taken := s.txns[tid], Taken(s, tid);
    NotDone(s, tid, pick);
    WritesStayAtHome(s.db, t);
    FinishedHasNothingLeft(|s.db.orgs|, t);
    if Statement(s.db, t, taken, pick).Continue? {
      StatementAdvances(s.db, t, taken, pick);
    }
  }

  /** What all transactions together still have before them. */
  ghost function AllLeft(s: System): int {
    LeftIn(|s.db.orgs|, s.txns)
  }

  ghost function LeftIn(orgs: nat, txns: map<nat, Txn>): int {
    Sum(Lefts(orgs, txns))
  }

  function Lefts(orgs: nat, txns: map<nat, Txn>): map<nat, int> {
    map tid | tid in txns :: Left(orgs, txns[tid])
  }

  lemma AllLeftNotNegative(s: System)
    ensures AllLeft(s) >= 0
  {
    SumNonNegative(Lefts(|s.db.orgs|, s.txns));
  }

  lemma SumChanged(m: map<nat, int>, k: nat, v: int)
    requires k in m
    ensures Sum(m[k := v]) == Sum(m) - m[k] + v
  {
    SumRemove(m, k);
    SumRemove(m[k := v], k);
    assert m[k := v] - {k} == m - {k};
  }

  lemma OneHasLess(txns: map<nat, Txn>, txns': map<nat, Txn>, orgs: nat, tid: nat)
    requires tid in txns && tid in txns' && txns' == txns[tid := txns'[tid]]
    requires Left(orgs, txns'[tid]) < Left(orgs, txns[tid])
    ensures LeftIn(orgs, txns') < LeftIn(orgs, txns)
  {
    hide Left;
    var left := Lefts(orgs, txns);
    assert Lefts(orgs, txns') == left[tid := Left(orgs, txns'[tid])];
    SumChanged(left, tid, Left(orgs, txns'[tid]));
  }

  lemma SameSize(a: map<string, Org>, b: map<string, Org>)
    requires a.Keys == b.Keys
    ensures |a| == |b|
  {
    assert |a.Keys| == |a| && |b.Keys| == |b|;
  }

  lemma StepLeavesLess(s: System, tid: nat, pick: string)
    requires SystemOk(s) && CanStep(s, tid, pick)
    ensures AllLeft(Next(s, tid, pick)) < AllLeft(s)
  {
    hide SystemOk, Next, CanStep, Left, LeftIn;
    var s' := Next(s, tid, pick);
    StepAdvances(s, tid, pick);
    SameSize(s.db.orgs, s'.db.orgs);
    OneHasLess(s.txns, s'.txns, |s.db.orgs|, tid);
  }

  /** No interleaving goes on for ever: however the transactions take turns, there are at most as many
      statements as they have before them. */
  lemma {:induction false} InterleavingsEnd(env: Env, s: System, steps: seq<(nat, string)>)
    requires SystemOk(s) && Inv(env, s.db) && Interleaving(s, steps)
    ensures SystemOk(Last(s, steps))
    ensures |steps| + AllLeft(Last(s, steps)) <= AllLeft(s)
    decreases |steps|
  {
    InterleavingIsSerial(env, s, steps);
    if steps != [] {
      var (tid, pick) := steps[0];
      StepRefines(env, s, tid, pick);
      StepKeepsInv(env, s, tid, pick);
      hide SystemOk, Inv, CanStep, Next, AllLeft;
      StepLeavesLess(s, tid, pick);
      InterleavingsEnd(env, Next(s, tid, pick), steps[1..]);
    }
  }

  lemma StepKeepsInv(env: Env, s: System, tid: nat, pick: string)
    requires SystemOk(s) && Inv(env, s.db) && CanStep(s, tid, pick)
    ensures Inv(env, Next(s, tid, pick).db)
  {
    StepRefines(env, s, tid, pick);
    if Ends(s, tid, pick) {
      StepKeeps(env, s.db, AtomicOf(s.txns[tid]));
    }
    hide SystemOk, Inv, Next, CanStep, Admissible, Apply;
  }

  /** So every interleaving can be continued until all transactions have ended, and then stops. */
  lemma EveryTransactionEnds(env: Env, s: System, steps: seq<(nat, string)>)
    requires SystemOk(s) && Inv(env, s.db) && Interleaving(s, steps)
    requires forall tid, pick :: !CanStep(Last(s, steps), tid, pick)
    ensures |steps| <= AllLeft(s)
    ensures forall tid :: tid in Last(s, steps).txns ==> Last(s, steps).txns[tid].pc.Done?
  {
    InterleavingsEnd(env, s, steps);
    AllLeftNotNegative(Last(s, steps));
    forall tid | tid in Last(s, steps).txns
      ensures Last(s, steps).txns[tid].pc.Done?
    {
      if !Last(s, steps).txns[tid].pc.Done? {
        NoDeadlock(Last(s, steps), tid);
      }
    }
  }

  /* ----- What is waited for ----- */

  /** The statements wait for the rows they lock: the organization's at the start, the hold's at its FOR
      UPDATE, each expired hold's at the reclaim, the new hold's at the insert. */
  lemma RowsAreWaitedFor(db: Db, t: Txn, taken: Locks, pick: string)
    requires Asks(t, pick)
    ensures t.pc.Start? && (t.op.PlaceOp? || t.op.ReclaimOp?) && t.op.org in db.orgs && t.op.org in taken.orgs ==>
              Statement(db, t, taken, pick) == Blocked
    ensures t.pc.Found? && t.pc.org in db.orgs && t.pc.org in taken.orgs ==> Statement(db, t, taken, pick) == Blocked
    ensures t.pc.Locked? && t.op.ReleaseOp? && t.op.hold in db.holds && t.op.hold in taken.rows ==>
              Statement(db, t, taken, pick) == Blocked
    ensures t.pc.Sweeping? && t.pc.todo != {} && !t.op.ReleaseOp? ==>
              forall h :: h in db.holds && h !in t.holds && h in taken.rows && db.holds[h].org == pick
                          && !db.holds[h].settled && db.holds[h].expires < t.op.now ==>
                Statement(db, t, taken, pick) == Blocked
    ensures t.pc.Debited? && t.op.PlaceOp? && t.op.id in taken.rows ==> Statement(db, t, taken, pick) == Blocked
  {
    if t.pc.Sweeping? && t.pc.todo != {} && !t.op.ReleaseOp? {
      forall h | h in db.holds && h !in t.holds && h in taken.rows && db.holds[h].org == pick
                 && !db.holds[h].settled && db.holds[h].expires < t.op.now
        ensures Statement(db, t, taken, pick) == Blocked
      {
        assert See(db, t).holds[h] == db.holds[h];
        assert h in Needs(db, t, pick).rows;
      }
    }
    if t.pc.Start? && (t.op.PlaceOp? || t.op.ReclaimOp?) && t.op.org in db.orgs && t.op.org in taken.orgs {
      assert t.op.org in Needs(db, t, pick).orgs;
    }
    if t.pc.Found? && t.pc.org in db.orgs && t.pc.org in taken.orgs {
      assert t.pc.org in Needs(db, t, pick).orgs;
    }
    if t.pc.Locked? && t.op.ReleaseOp? && t.op.hold in db.holds && t.op.hold in taken.rows {
      assert t.op.hold in Needs(db, t, pick).rows;
    }
    if t.pc.Debited? && t.op.PlaceOp? && t.op.id in taken.rows {
      assert t.op.id in Needs(db, t, pick).rows;
    }
  }

  /** The sweeper locks, in its first statement, every organization with an expired hold that no other
      transaction has locked, and no other organization. */
  lemma SweeperLocksExactly(db: Db, t: Txn, taken: Locks, pick: string)
    requires t.pc.Start? && t.op.SweepOp?
    ensures var effect := Statement(db, t, taken, pick);
            && effect.Continue?
            && effect.next.pc == Sweeping(effect.next.locks)
            && forall o :: o in effect.next.locks
                 <==> && o in db.orgs && o !in taken.orgs
                      && exists h :: h in db.holds && db.holds[h].org == o && !db.holds[h].settled && db.holds[h].expires < t.op.now
  {
    hide See, ExpiredHolds;
    forall o
      ensures o in ExpiredOrgs(db, t.op.now)
              <==> o in db.orgs
                   && exists h :: h in db.holds && db.holds[h].org == o && !db.holds[h].settled && db.holds[h].expires < t.op.now
    {
      if h :| h in db.holds && db.holds[h].org == o && !db.holds[h].settled && db.holds[h].expires < t.op.now {
        assert Expired(db.holds[h], t.op.now);
      }
    }
  }
}
