/** The hold transactions as they really interleave: every statement is a separate step, takes the
    row locks it needs on organizations and on holds and waits while another transaction has one
    of them, and uncommitted writes are seen by nobody else. */
module LockProtocol {
  import opened Wrappers
  import opened Sums
  import opened Ledger
  import opened Conservation
  import opened CreditRuns
  import HoldPlan

  datatype Op =
    | PlaceOp(org: string, threshold: int, ttlNanos: int, plan: Planner, id: string, now: int)
    | ReleaseOp(hold: string)
    | ReclaimOp(org: string, now: int)
    | SweepOp(now: int)

  datatype Pc =
    | Start
    | Found(org: string)               // settle: the hold was looked up, nothing is locked yet
    | Locked(org: string)              // settle: the organization's row is locked
    | Held(org: string)                // settle: the hold's row is locked too and was found open
    | Marked(org: string)              // settle: the hold row is marked settled
    | Sweeping(todo: set<string>)      // the locked organizations still to be reclaimed
    | Debited(plan: HoldPlan.Plan)     // place: the balance is debited, the hold row is missing
    | Inserted(plan: HoldPlan.Plan)    // place: the hold row is inserted, the commit is missing
    | Settled(org: string)             // settle: the balance is credited, the commit is missing
    | Done

  /** A transaction with its locks on organization rows and on hold rows, and its uncommitted
      writes. */
  datatype Txn = Txn(
    op: Op, pc: Pc, locks: set<string>, rows: set<string>, orgs: map<string, Org>, holds: map<string, Hold>)

  datatype System = System(db: Db, txns: map<nat, Txn>)

  /** Row locks on organizations and on holds. */
  datatype Locks = Locks(orgs: set<string>, rows: set<string>)

  predicate Clash(a: Locks, b: Locks) {
    !(a.orgs !! b.orgs) || !(a.rows !! b.rows)
  }

  /** The tables as the transaction's own statements read them. */
  function See(db: Db, t: Txn): Db {
    db.(orgs := db.orgs + t.orgs, holds := db.holds + t.holds)
  }

  function Begun(op: Op): Txn {
    Txn(op, Start, {}, {}, map[], map[])
  }

  function Finished(t: Txn): Txn {
    Txn(t.op, Done, {}, {}, map[], map[])
  }

  /* ----- One statement of one transaction ----- */

  datatype Effect = Idle | Blocked | Continue(next: Txn) | Commit | Abort

  /** The row locks that the next statement takes or already relies on: FOR UPDATE and every update
      lock the rows they find, an insert locks its new row and, through its foreign key, the
      organization's. The sweeper skips locked rows and so asks for none. */
  function Needs(db: Db, t: Txn, pick: string): Locks {
    match t.pc
    case Start =>
      (match t.op
       case PlaceOp(org, _, _, _, _, _) => Locks({org} * db.orgs.Keys, {})
       case ReclaimOp(org, _) => Locks({org} * db.orgs.Keys, {})
       case _ => Locks({}, {}))
    case Found(org) => Locks({org} * db.orgs.Keys, {})
    case Locked(_) => Locks({}, if t.op.ReleaseOp? then {t.op.hold} * db.holds.Keys else {})
    case Held(_) => Locks({}, if t.op.ReleaseOp? then {t.op.hold} else {})
    case Marked(org) => Locks({org}, {})
    case Sweeping(todo) =>
      if todo != {} then Locks({pick}, ExpiredHolds(See(db, t), pick, NowOf(t.op)).Keys)
      else Locks(if t.op.PlaceOp? then {t.op.org} else {}, {})
    case Debited(_) => if t.op.PlaceOp? then Locks({t.op.org}, {t.op.id}) else Locks({}, {})
    case _ => Locks({}, {})
  }

  /** The pick says which of the locked organizations the reclaim loop visits next. */
  predicate Asks(t: Txn, pick: string) {
    !t.pc.Done? && (t.pc.Sweeping? && t.pc.todo != {} ==> pick in t.pc.todo)
  }

  /** The next statement, given the locks the other transactions hold: it waits while one of them
      has a row it needs. */
  ghost function Statement(db: Db, t: Txn, taken: Locks, pick: string): Effect {
    if !Asks(t, pick) then Idle
    else if Clash(Needs(db, t, pick), taken) then Blocked
    else Perform(db, t, taken, pick)
  }

  function LockOne(db: Db, t: Txn, org: string, pc: Pc): Effect {
    if org == "" || org !in db.orgs then Abort else Continue(t.(pc := pc, locks := {org}))
  }

  ghost function Perform(db: Db, t: Txn, taken: Locks, pick: string): Effect {
    var seen := See(db, t);
    match t.pc
    case Start =>
      (match t.op
       case PlaceOp(org, _, _, _, _, _) => LockOne(db, t, org, Sweeping({org}))
       case ReclaimOp(org, _) => LockOne(db, t, org, Sweeping({org}))
       case SweepOp(now) =>
         var mine := ExpiredOrgs(db, now) - taken.orgs;
         Continue(t.(pc := Sweeping(mine), locks := mine))
       case ReleaseOp(hold) =>
         if hold == "" || hold !in db.holds then Abort else Continue(t.(pc := Found(db.holds[hold].org))))
    case Found(org) => LockOne(db, t, org, Locked(org))
    case Locked(org) =>
      if !t.op.ReleaseOp? || t.op.hold !in seen.holds || seen.holds[t.op.hold].settled then Abort
      else Continue(t.(pc := Held(org), rows := t.rows + {t.op.hold}))
    case Held(org) =>
      if !t.op.ReleaseOp? || t.op.hold !in seen.holds || seen.holds[t.op.hold].settled then Abort
      else Continue(t.(pc := Marked(org), holds := t.holds[t.op.hold := seen.holds[t.op.hold].(settled := true)]))
    case Marked(org) =>
      if !t.op.ReleaseOp? || t.op.hold !in seen.holds || org !in seen.orgs then Abort
      else
        var o := seen.orgs[org];
        Continue(t.(pc := Settled(org), orgs := t.orgs[org := o.(remaining := o.remaining + seen.holds[t.op.hold].amount)]))
    case Sweeping(todo) =>
      if todo != {} then
        if pick !in todo || pick !in seen.orgs || t.op.ReleaseOp? then Abort else Continue(ReclaimOne(seen, t, todo, pick))
      else if !t.op.PlaceOp? then Commit
      else if t.op.org !in seen.orgs then Abort
      else
        var remaining := seen.orgs[t.op.org].remaining;
        (match t.op.plan(remaining)
         case Err(_) => Abort
         case Ok(p) =>
           if p.amount < 1 || p.maxTokens < 1 || remaining < p.amount || remaining < t.op.threshold then Abort
           else Continue(t.(pc := Debited(p),
                            orgs := t.orgs[t.op.org := seen.orgs[t.op.org].(remaining := remaining - p.amount)])))
    case Debited(p) =>
      if !t.op.PlaceOp? then Abort
      else Continue(t.(pc := Inserted(p), rows := t.rows + {t.op.id},
                       holds := t.holds[t.op.id := Hold(t.op.org, p.amount, ExpiresAt(t.op.now, t.op.ttlNanos), false)]))
    case Inserted(_) => Commit
    case Settled(_) => Commit
    case Done => Idle
  }

  function NowOf(op: Op): int {
    match op
    case PlaceOp(_, _, _, _, _, now) => now
    case ReclaimOp(_, now) => now
    case SweepOp(now) => now
    case ReleaseOp(_) => 0
  }

  /** The reclaim statement for one organization, on what the transaction sees. */
  ghost function ReclaimOne(seen: Db, t: Txn, todo: set<string>, org: string): Txn
    requires org in seen.orgs
  {
    var now := NowOf(t.op);
    var o := seen.orgs[org];
    var marked := map h | h in seen.holds && seen.holds[h].org == org && Expired(seen.holds[h], now)
                    :: seen.holds[h].(settled := true);
    t.(pc := Sweeping(todo - {org}),
       rows := t.rows + marked.Keys,
       orgs := t.orgs[org := o.(remaining := o.remaining + Sum(ExpiredHolds(seen, org, now)))],
       holds := t.holds + marked)
  }

  function Taken(s: System, self: nat): Locks {
    Locks(set u, o | u in s.txns && u != self && o in s.txns[u].locks :: o,
          set u, h | u in s.txns && u != self && h in s.txns[u].rows :: h)
  }

  /** The transaction waits for a row lock of another one. */
  ghost predicate Waits(s: System, tid: nat, pick: string) {
    tid in s.txns && Statement(s.db, s.txns[tid], Taken(s, tid), pick).Blocked?
  }

  ghost predicate CanStep(s: System, tid: nat, pick: string) {
    && tid in s.txns
    && var effect := Statement(s.db, s.txns[tid], Taken(s, tid), pick);
       !effect.Blocked? && !effect.Idle?
  }

  ghost function Next(s: System, tid: nat, pick: string): System
    requires CanStep(s, tid, pick)
  {
    var t := s.txns[tid];
    match Statement(s.db, t, Taken(s, tid), pick)
    case Continue(t') => s.(txns := s.txns[tid := t'])
    case Commit => System(See(s.db, t), s.txns[tid := Finished(t)])
    case Abort => s.(txns := s.txns[tid := Finished(t)])
    case _ => s
  }

  /* ----- What a transaction has written so far, computed from the committed rows it has locked ----- */

  ghost function SweptOrgs(db: Db, orgs: set<string>, now: int): map<string, Org> {
    map o | o in orgs && o in db.orgs :: db.orgs[o].(remaining := db.orgs[o].remaining + Sum(ExpiredHolds(db, o, now)))
  }

  function SweptHolds(db: Db, orgs: set<string>, now: int): map<string, Hold> {
    map h | h in db.holds && db.holds[h].org in orgs && Expired(db.holds[h], now) :: db.holds[h].(settled := true)
  }

  ghost predicate PlanHolds(db: Db, op: Op, p: HoldPlan.Plan)
    requires op.PlaceOp? && op.org in db.orgs
  {
    var remaining := SweptOrgs(db, {op.org}, op.now)[op.org].remaining;
    op.plan(remaining) == Ok(p) && p.amount >= 1 && p.maxTokens >= 1 && remaining >= p.amount && remaining >= op.threshold
  }

  ghost function DebitedOrgs(db: Db, op: Op, p: HoldPlan.Plan): map<string, Org>
    requires op.PlaceOp? && op.org in db.orgs
  {
    var o := SweptOrgs(db, {op.org}, op.now)[op.org];
    map[op.org := o.(remaining := o.remaining - p.amount)]
  }

  ghost predicate TxnOk(db: Db, t: Txn) {
    && t.locks <= db.orgs.Keys
    && t.rows == (if t.pc.Held? && t.op.ReleaseOp? then {t.op.hold} else t.holds.Keys)
    && match t.pc
       case Start => t.locks == {} && t.orgs == map[] && t.holds == map[]
       case Done => t.locks == {} && t.orgs == map[] && t.holds == map[]
       case Found(org) =>
         && t.locks == {} && t.orgs == map[] && t.holds == map[]
         && t.op.ReleaseOp? && t.op.hold != "" && t.op.hold in db.holds && db.holds[t.op.hold].org == org
       case Locked(org) =>
         && t.locks == {org} && t.orgs == map[] && t.holds == map[]
         && t.op.ReleaseOp? && t.op.hold != "" && t.op.hold in db.holds && db.holds[t.op.hold].org == org
       case Held(org) =>
         && t.locks == {org} && t.orgs == map[] && t.holds == map[]
         && t.op.ReleaseOp? && t.op.hold != "" && t.op.hold in db.holds && db.holds[t.op.hold].org == org
         && !db.holds[t.op.hold].settled
       case Marked(org) =>
         && t.locks == {org} && t.orgs == map[]
         && t.op.ReleaseOp? && t.op.hold != "" && t.op.hold in db.holds && db.holds[t.op.hold].org == org
         && !db.holds[t.op.hold].settled
         && t.holds == map[t.op.hold := db.holds[t.op.hold].(settled := true)]
       case Sweeping(todo) =>
         && todo <= t.locks && !t.op.ReleaseOp?
         && (t.op.PlaceOp? || t.op.ReclaimOp? ==> t.locks == {t.op.org} && t.op.org != "")
         && t.orgs == SweptOrgs(db, t.locks - todo, NowOf(t.op))
         && t.holds == SweptHolds(db, t.locks - todo, NowOf(t.op))
       case Debited(p) =>
         && t.op.PlaceOp? && t.op.org != "" && t.locks == {t.op.org}
         && PlanHolds(db, t.op, p)
         && t.orgs == DebitedOrgs(db, t.op, p)
         && t.holds == SweptHolds(db, {t.op.org}, t.op.now)
       case Inserted(p) =>
         && t.op.PlaceOp? && t.op.org != "" && t.locks == {t.op.org}
         && PlanHolds(db, t.op, p)
         && t.orgs == DebitedOrgs(db, t.op, p)
         && t.holds == SweptHolds(db, {t.op.org}, t.op.now)[t.op.id := NewHold(t.op, p)]
       case Settled(org) =>
         && t.locks == {org} && org in db.orgs
         && t.op.ReleaseOp? && t.op.hold != "" && t.op.hold in db.holds && db.holds[t.op.hold].org == org
         && !db.holds[t.op.hold].settled
         && t.holds == map[t.op.hold := db.holds[t.op.hold].(settled := true)]
         && t.orgs == map[org := db.orgs[org].(remaining := db.orgs[org].remaining + db.holds[t.op.hold].amount)]
  }

  function NewHold(op: Op, p: HoldPlan.Plan): Hold
    requires op.PlaceOp?
  {
    Hold(op.org, p.amount, ExpiresAt(op.now, op.ttlNanos), false)
  }

  predicate Inserting(t: Txn) {
    t.op.PlaceOp? && !t.pc.Done?
  }

  /** Ids generated for rows that are not inserted yet are fresh and pairwise distinct. */
  ghost predicate FreshIds(s: System) {
    && (forall a :: a in s.txns && Inserting(s.txns[a]) ==>
          s.txns[a].op.id != "" && s.txns[a].op.id !in s.db.holds)
    && (forall a, b :: a in s.txns && b in s.txns && a != b && Inserting(s.txns[a]) && Inserting(s.txns[b]) ==>
          s.txns[a].op.id != s.txns[b].op.id)
  }

  ghost predicate LocksDisjoint(s: System) {
    forall a, b :: a in s.txns && b in s.txns && a != b ==> s.txns[a].locks !! s.txns[b].locks
  }

  ghost predicate SystemOk(s: System) {
    && FreshIds(s)
    && LocksDisjoint(s)
    && forall a :: a in s.txns ==> TxnOk(s.db, s.txns[a])
  }

  /* ----- Other transactions' commits do not disturb a transaction ----- */

  /** Two states of the tables with the same rows for a set of organizations. */
  ghost predicate SameRows(a: Db, b: Db, orgs: set<string>) {
    && (forall o :: o in orgs ==> (o in a.orgs <==> o in b.orgs) && (o in a.orgs ==> a.orgs[o] == b.orgs[o]))
    && (forall h :: h in a.holds && a.holds[h].org in orgs ==> h in b.holds && b.holds[h] == a.holds[h])
    && (forall h :: h in b.holds && b.holds[h].org in orgs ==> h in a.holds && a.holds[h] == b.holds[h])
  }

  lemma SameRowsSameSweep(a: Db, b: Db, orgs: set<string>, now: int)
    requires SameRows(a, b, orgs)
    ensures SweptOrgs(a, orgs, now) == SweptOrgs(b, orgs, now)
    ensures SweptHolds(a, orgs, now) == SweptHolds(b, orgs, now)
  {
    forall o | o in orgs
      ensures ExpiredHolds(a, o, now) == ExpiredHolds(b, o, now)
    {
    }
  }

  /** The writes stay within the rows of the locked organizations (and the new hold's row). */
  lemma WritesAreLocked(db: Db, t: Txn)
    requires TxnOk(db, t)
    ensures t.orgs.Keys <= t.locks
    ensures forall h :: h in t.holds ==> t.holds[h].org in t.locks
    ensures forall h :: h in t.holds && h in db.holds && !(t.op.PlaceOp? && h == t.op.id) ==>
              db.holds[h].org in t.locks && t.holds[h] == db.holds[h].(settled := true)
    ensures forall h :: h in t.holds && h !in db.holds ==> t.op.PlaceOp? && t.op.id == h
  {
  }

  lemma CommitKeepsOtherRows(db: Db, u: Txn, orgs: set<string>)
    requires TxnOk(db, u) && u.locks !! orgs
    requires u.op.PlaceOp? ==> u.op.id !in db.holds
    ensures SameRows(db, See(db, u), orgs)
  {
    WritesAreLocked(db, u);
  }

  lemma OthersSweepsStayOk(db: Db, db': Db, t: Txn)
    requires TxnOk(db, t) && SameRows(db, db', t.locks) && HoldsOnlyAge(db, db') && !t.op.ReleaseOp?
    ensures TxnOk(db', t)
  {
    hide SweptHolds, SweptOrgs, ExpiresAt, HoldsOnlyAge;
    match t.pc
    case Sweeping(todo) => SameRowsSameSweep(db, db', t.locks - todo, NowOf(t.op));
    case Debited(_) => SameRowsSameSweep(db, db', t.locks, NowOf(t.op));
    case Inserted(_) => SameRowsSameSweep(db, db', t.locks, NowOf(t.op));
    case _ =>
  }

  lemma OthersStayOk(db: Db, db': Db, t: Txn)
    requires TxnOk(db, t) && SameRows(db, db', t.locks) && HoldsOnlyAge(db, db')
    ensures TxnOk(db', t)
  {
    hide SweptHolds, SweptOrgs, ExpiresAt, PlanHolds, DebitedOrgs;
    if !t.op.ReleaseOp? {
      OthersSweepsStayOk(db, db', t);
    }
  }

  lemma NothingSwept(db: Db, none: set<string>, now: int)
    requires none == {}
    ensures SweptOrgs(db, none, now) == map[] && SweptHolds(db, none, now) == map[]
  {
  }

  /* ----- Each statement keeps its own transaction in order ----- */

  lemma LockStatement(db: Db, t: Txn, taken: Locks, pick: string)
    requires TxnOk(db, t) && (t.pc.Start? || t.pc.Found?)
    requires Statement(db, t, taken, pick).Continue?
    ensures var t' := Statement(db, t, taken, pick).next;
            TxnOk(db, t') && t'.op == t.op && !t'.pc.Done? && t'.locks !! taken.orgs
  {
    var t' := Statement(db, t, taken, pick).next;
    if t'.pc.Sweeping? {
      NothingSwept(db, t'.locks - t'.pc.todo, NowOf(t.op));
    }
  }

  /** What the transaction sees of an organization it has not reclaimed yet is what is committed. */
  lemma UnsweptAsCommitted(db: Db, t: Txn, done: set<string>, o: string, now: int)
    requires o !in done && t.orgs == SweptOrgs(db, done, now) && t.holds == SweptHolds(db, done, now)
    ensures ExpiredHolds(See(db, t), o, now) == ExpiredHolds(db, o, now)
    ensures o in db.orgs ==> o in See(db, t).orgs && See(db, t).orgs[o] == db.orgs[o]
    ensures (map h | h in See(db, t).holds && See(db, t).holds[h].org == o && Expired(See(db, t).holds[h], now)
                 :: See(db, t).holds[h].(settled := true)) == SweptHolds(db, {o}, now)
  {
    UnsweptRows(db, t, done, o, now);
    hide See, Expired, SweptOrgs;
  }

  lemma UnsweptRows(db: Db, t: Txn, done: set<string>, o: string, now: int)
    requires o !in done && t.orgs == SweptOrgs(db, done, now) && t.holds == SweptHolds(db, done, now)
    ensures o in db.orgs ==> o in See(db, t).orgs && See(db, t).orgs[o] == db.orgs[o]
    ensures forall h :: h in See(db, t).holds && See(db, t).holds[h].org == o ==> h in db.holds && See(db, t).holds[h] == db.holds[h]
    ensures forall h :: h in db.holds && db.holds[h].org == o ==> h in See(db, t).holds && See(db, t).holds[h] == db.holds[h]
  {
    hide Expired;
  }

  lemma SweptOneMore(db: Db, done: set<string>, o: string, now: int)
    requires o in db.orgs && o !in done
    ensures SweptOrgs(db, done + {o}, now)
            == SweptOrgs(db, done, now)[o := db.orgs[o].(remaining := db.orgs[o].remaining + Sum(ExpiredHolds(db, o, now)))]
    ensures SweptHolds(db, done + {o}, now) == SweptHolds(db, done, now) + SweptHolds(db, {o}, now)
  {
    hide ExpiredHolds, Expired;
  }

  lemma ReclaimStatement(db: Db, t: Txn, pick: string)
    requires TxnOk(db, t) && t.pc.Sweeping? && pick in t.pc.todo && pick in See(db, t).orgs
    ensures TxnOk(db, ReclaimOne(See(db, t), t, t.pc.todo, pick))
  {
    hide ExpiredHolds, Expired, SweptOrgs, SweptHolds;
    var todo := t.pc.todo;
    var done := t.locks - todo;
    UnsweptAsCommitted(db, t, done, pick, NowOf(t.op));
    SweptOneMore(db, done, pick, NowOf(t.op));
    assert t.locks - (todo - {pick}) == done + {pick};
  }

  lemma DebitStatement(db: Db, t: Txn, taken: Locks, pick: string)
    requires TxnOk(db, t) && t.pc == Sweeping({})
    requires Statement(db, t, taken, pick).Continue?
    ensures TxnOk(db, Statement(db, t, taken, pick).next)
  {
    hide SweptHolds, ExpiredHolds, Expired, Clash, Needs;
    assert t.locks - {} == {t.op.org};
  }

  lemma OtherStatement(db: Db, t: Txn, taken: Locks, pick: string)
    requires TxnOk(db, t) && (t.pc.Locked? || t.pc.Held? || t.pc.Marked? || t.pc.Debited?)
    requires Statement(db, t, taken, pick).Continue?
    ensures TxnOk(db, Statement(db, t, taken, pick).next)
  {
    hide SweptOrgs, SweptHolds, PlanHolds, DebitedOrgs, ExpiresAt;
  }

  /** Once a transaction has its organizations' locks it keeps them and takes no further ones. */
  lemma LocksStay(db: Db, t: Txn, taken: Locks, pick: string)
    requires !t.pc.Start? && !t.pc.Found? && Statement(db, t, taken, pick).Continue?
    ensures var t' := Statement(db, t, taken, pick).next;
            t'.op == t.op && !t'.pc.Done? && t'.locks == t.locks
    ensures !t.pc.Done? && !t.pc.Inserted? && !t.pc.Settled?
  {
    hide See, Needs, Clash;
  }

  lemma SweepStatement(db: Db, t: Txn, taken: Locks, pick: string)
    requires TxnOk(db, t) && t.pc.Sweeping? && t.pc.todo != {} && Statement(db, t, taken, pick).Continue?
    ensures TxnOk(db, Statement(db, t, taken, pick).next)
  {
    hide TxnOk, See, ReclaimOne, Needs, Clash;
    ReclaimStatement(db, t, pick);
  }

  lemma StatementKeepsOk(db: Db, t: Txn, taken: Locks, pick: string)
    requires TxnOk(db, t) && t.locks !! taken.orgs && Statement(db, t, taken, pick).Continue?
    ensures var t' := Statement(db, t, taken, pick).next;
            TxnOk(db, t') && t'.op == t.op && !t'.pc.Done? && t'.locks !! taken.orgs
  {
    hide TxnOk, Statement;
    if t.pc.Start? || t.pc.Found? {
      LockStatement(db, t, taken, pick);
    } else {
      LocksStay(db, t, taken, pick);
      if t.pc == Sweeping({}) {
        DebitStatement(db, t, taken, pick);
      } else if t.pc.Sweeping? {
        SweepStatement(db, t, taken, pick);
      } else {
        OtherStatement(db, t, taken, pick);
      }
    }
  }

  /* ----- A transaction takes effect all at once, when it ends ----- */

  function AtomicOf(t: Txn): Step {
    match t.op
    case PlaceOp(org, threshold, ttl, plan, id, now) => Place(org, threshold, ttl, plan, id, now)
    case ReleaseOp(hold) => Release(hold)
    case ReclaimOp(org, now) => Sweep({org}, now)
    case SweepOp(now) => Sweep(t.locks, now)
  }

  lemma SweptIsSweep(db: Db, orgs: set<string>, now: int)
    requires orgs <= db.orgs.Keys
    ensures db.(orgs := db.orgs + SweptOrgs(db, orgs, now), holds := db.holds + SweptHolds(db, orgs, now)) == SweepTx(db, orgs, now)
  {
    hide ExpiredHolds, Expired;
    assert db.orgs + SweptOrgs(db, orgs, now) == SweepTx(db, orgs, now).orgs;
    assert db.holds + SweptHolds(db, orgs, now) == SweepTx(db, orgs, now).holds;
  }

  lemma InsertedIsPlaced(db: Db, t: Txn)
    requires TxnOk(db, t) && t.pc.Inserted? && t.op.id !in db.holds
    ensures var outcome := PlaceHoldTx(db, t.op.org, t.op.threshold, t.op.ttlNanos, t.op.plan, t.op.id, t.op.now);
            outcome.Committed? && outcome.db == See(db, t)
  {
    var op, p := t.op, t.pc.plan;
    SweptRow(db, op.org, op.now);
    PlaceOutcome(db, op, p);
    InsertedTables(db, t);
  }

  lemma SweptRow(db: Db, o: string, now: int)
    requires o in db.orgs
    ensures SweepTx(db, {o}, now).orgs[o] == SweptOrgs(db, {o}, now)[o]
  {
  }

  lemma PlaceOutcome(db: Db, op: Op, p: HoldPlan.Plan)
    requires op.PlaceOp? && op.org != "" && op.org in db.orgs && PlanHolds(db, op, p)
    requires SweepTx(db, {op.org}, op.now).orgs[op.org] == SweptOrgs(db, {op.org}, op.now)[op.org]
    ensures var outcome := PlaceHoldTx(db, op.org, op.threshold, op.ttlNanos, op.plan, op.id, op.now);
            var swept := SweepTx(db, {op.org}, op.now);
            && outcome.Committed?
            && outcome.db == swept.(orgs := swept.orgs[op.org := DebitedOrgs(db, op, p)[op.org]],
                                    holds := swept.holds[op.id := NewHold(op, p)])
  {
  }

  lemma InsertedTables(db: Db, t: Txn)
    requires TxnOk(db, t) && t.pc.Inserted?
    ensures var swept := SweepTx(db, {t.op.org}, t.op.now);
            See(db, t) == swept.(orgs := swept.orgs[t.op.org := DebitedOrgs(db, t.op, t.pc.plan)[t.op.org]],
                                 holds := swept.holds[t.op.id := NewHold(t.op, t.pc.plan)])
  {
    var op := t.op;
    var orgs, holds := SweptOrgs(db, {op.org}, op.now), SweptHolds(db, {op.org}, op.now);
    SweptIsSweep(db, {op.org}, op.now);
    OneRowOver(db.holds, holds, op.id, NewHold(op, t.pc.plan));
    OneRowInstead(db.orgs, orgs, op.org, DebitedOrgs(db, op, t.pc.plan)[op.org]);
    hide SweptOrgs, SweptHolds, SweepTx, PlanHolds, NewHold;
  }

  lemma OneRowOver<V>(table: map<string, V>, part: map<string, V>, k: string, v: V)
    ensures table + part[k := v] == (table + part)[k := v]
  {
  }

  lemma OneRowInstead<V>(table: map<string, V>, part: map<string, V>, k: string, v: V)
    requires part.Keys <= {k}
    ensures table + map[k := v] == (table + part)[k := v]
  {
  }

  lemma SettledIsReleased(db: Db, t: Txn)
    requires TxnOk(db, t) && t.pc.Settled?
    ensures After(db, SettleTx(db, t.op.hold, 0)) == See(db, t)
  {
    assert See(db, t).holds == db.holds[t.op.hold := db.holds[t.op.hold].(settled := true)];
    assert See(db, t).orgs == db.orgs + t.orgs;
  }

  /** A commit makes the tables exactly what the whole transaction, run at that instant, makes of
      them. */
  lemma CommitIsAtomic(env: Env, db: Db, t: Txn, taken: Locks, pick: string)
    requires TxnOk(db, t) && (Inserting(t) ==> t.op.id !in db.holds)
    requires Statement(db, t, taken, pick).Commit?
    ensures See(db, t) == Apply(env, db, AtomicOf(t))
  {
    hide SweptOrgs, SweptHolds, SweepTx, PlaceHoldTx, SettleTx, ReclaimOne, PlanHolds, DebitedOrgs;
    match t.pc
    case Sweeping(_) =>
      assert t.locks - {} == t.locks;
      SweptIsSweep(db, t.locks, NowOf(t.op));
    case Inserted(_) => InsertedIsPlaced(db, t);
    case Settled(_) => SettledIsReleased(db, t);
    case _ => assert false;
  }

  /** A transaction that gives up leaves the tables as the whole transaction, run at that instant,
      would have left them. */
  lemma AbortIsAtomic(env: Env, db: Db, t: Txn, taken: Locks, pick: string)
    requires WellFormed(db) && TxnOk(db, t) && Statement(db, t, taken, pick).Abort?
    ensures Apply(env, db, AtomicOf(t)) == db
  {
    match t.pc
    case Start =>
      if t.op.ReclaimOp? {
        NobodySwept(db, t.op.org, t.op.now);
      }
    case Sweeping(_) => RefusedIsRolledBack(db, t, taken, pick);
    case _ =>
  }

  lemma NobodySwept(db: Db, org: string, now: int)
    requires WellFormed(db) && org !in db.orgs
    ensures SweepTx(db, {org}, now) == db
  {
    assert SweepTx(db, {org}, now).orgs == db.orgs;
    assert SweepTx(db, {org}, now).holds == db.holds;
  }

  lemma RefusedIsRolledBack(db: Db, t: Txn, taken: Locks, pick: string)
    requires TxnOk(db, t) && t.pc.Sweeping? && Statement(db, t, taken, pick).Abort?
    ensures t.op.PlaceOp?
    ensures PlaceHoldTx(db, t.op.org, t.op.threshold, t.op.ttlNanos, t.op.plan, t.op.id, t.op.now).RolledBack?
  {
    assert t.locks - {} == {t.op.org};
    SweptRow(db, t.op.org, t.op.now);
  }

  /* ----- The whole system ----- */

  lemma TakenIsOthers(s: System, tid: nat)
    requires LocksDisjoint(s) && tid in s.txns
    ensures s.txns[tid].locks !! Taken(s, tid).orgs
    ensures forall u :: u in s.txns && u != tid ==> s.txns[u].locks <= Taken(s, tid).orgs
  {
  }

  lemma ContinueKeepsSystem(s: System, tid: nat, t': Txn)
    requires SystemOk(s) && tid in s.txns && TxnOk(s.db, t') && t'.op == s.txns[tid].op
    requires t'.pc.Done? || !s.txns[tid].pc.Done?
    requires t'.locks !! Taken(s, tid).orgs
    ensures SystemOk(s.(txns := s.txns[tid := t']))
  {
    hide TxnOk;
    TakenIsOthers(s, tid);
  }

  lemma CommitKeepsOther(s: System, tid: nat, u: nat)
    requires SystemOk(s) && tid in s.txns && u in s.txns && u != tid && !s.txns[tid].pc.Done?
    requires HoldsOnlyAge(s.db, See(s.db, s.txns[tid]))
    ensures TxnOk(See(s.db, s.txns[tid]), s.txns[u])
  {
    hide TxnOk, SameRows, HoldsOnlyAge, See;
    CommitKeepsOtherRows(s.db, s.txns[tid], s.txns[u].locks);
    OthersStayOk(s.db, See(s.db, s.txns[tid]), s.txns[u]);
  }

  lemma CommitInsertsOwnId(db: Db, t: Txn, h: string)
    requires TxnOk(db, t) && h in See(db, t).holds && h !in db.holds
    ensures t.op.PlaceOp? && h == t.op.id
  {
    WritesAreLocked(db, t);
  }

  lemma FinishedIsOk(db: Db, t: Txn)
    ensures TxnOk(db, Finished(t))
  {
  }

  lemma CommitKeepsIds(s: System, tid: nat, s': System)
    requires SystemOk(s) && tid in s.txns && !s.txns[tid].pc.Done?
    requires s' == System(See(s.db, s.txns[tid]), s.txns[tid := Finished(s.txns[tid])])
    ensures FreshIds(s')
  {
    hide TxnOk, LocksDisjoint, See;
    forall a | a in s'.txns && Inserting(s'.txns[a])
      ensures s'.txns[a].op.id !in s'.db.holds
    {
      if s'.txns[a].op.id in s'.db.holds {
        CommitInsertsOwnId(s.db, s.txns[tid], s.txns[a].op.id);
      }
    }
  }

  lemma CommitKeepsSystem(s: System, tid: nat, s': System)
    requires SystemOk(s) && tid in s.txns && !s.txns[tid].pc.Done?
    requires s' == System(See(s.db, s.txns[tid]), s.txns[tid := Finished(s.txns[tid])])
    requires HoldsOnlyAge(s.db, s'.db)
    ensures SystemOk(s')
  {
    hide TxnOk, HoldsOnlyAge, See, FreshIds;
    CommitKeepsIds(s, tid, s');
    forall u | u in s'.txns
      ensures TxnOk(s'.db, s'.txns[u])
    {
      if u == tid {
        FinishedIsOk(s'.db, s.txns[tid]);
      } else {
        CommitKeepsOther(s, tid, u);
      }
    }
  }

  ghost predicate Ends(s: System, tid: nat, pick: string)
    requires CanStep(s, tid, pick)
  {
    Next(s, tid, pick).txns[tid].pc.Done?
  }

  /** Every statement keeps the system in order, and refines the atomic transactions: the
      committed tables change only in the step that ends a transaction, and there exactly as the
      whole transaction, run at that instant, changes them. */
  lemma StepRefines(env: Env, s: System, tid: nat, pick: string)
    requires SystemOk(s) && Inv(env, s.db) && CanStep(s, tid, pick)
    ensures var s' := Next(s, tid, pick);
            && SystemOk(s')
            && (if Ends(s, tid, pick) then
                  s'.db == Apply(env, s.db, AtomicOf(s.txns[tid])) && Admissible(env, s.db, AtomicOf(s.txns[tid]))
                else s'.db == s.db)
  {
    var t, taken := s.txns[tid], Taken(s, tid);
    FinishedIsOk(s.db, t);
    hide Apply, Statement, Admissible, See, TxnOk, HoldsOnlyAge, Inv, Taken;
    TakenIsOthers(s, tid);
    NotDone(s, tid, pick);
    EndIsAdmissible(env, s, tid);
    match Statement(s.db, t, taken, pick)
    case Continue(t') =>
      StatementKeepsOk(s.db, t, taken, pick);
      ContinueKeepsSystem(s, tid, t');
    case Commit =>
      CommitIsAtomic(env, s.db, t, taken, pick);
      AtomicAges(env, s.db, t);
      CommitKeepsSystem(s, tid, Next(s, tid, pick));
    case Abort =>
      AbortIsAtomic(env, s.db, t, taken, pick);
      ContinueKeepsSystem(s, tid, Finished(t));
    case _ => assert false;
  }

  lemma NotDone(s: System, tid: nat, pick: string)
    requires CanStep(s, tid, pick)
    ensures !s.txns[tid].pc.Done?
  {
  }

  lemma EndIsAdmissible(env: Env, s: System, tid: nat)
    requires FreshIds(s) && tid in s.txns && !s.txns[tid].pc.Done?
    ensures Admissible(env, s.db, AtomicOf(s.txns[tid]))
  {
  }

  lemma AtomicAges(env: Env, db: Db, t: Txn)
    requires Inserting(t) ==> t.op.id !in db.holds
    requires !t.pc.Done?
    ensures HoldsOnlyAge(db, Apply(env, db, AtomicOf(t)))
  {
    match t.op
    case PlaceOp(org, threshold, ttl, plan, id, now) => PlaceAges(db, org, threshold, ttl, plan, id, now);
    case ReleaseOp(hold) => ReleaseAges(db, hold);
    case ReclaimOp(org, now) => SweepAges(db, {org}, now);
    case SweepOp(now) => SweepAges(db, t.locks, now);
  }

  /* ----- Every interleaving ----- */

  ghost predicate Interleaving(s: System, steps: seq<(nat, string)>)
    decreases |steps|
  {
    steps != [] ==> CanStep(s, steps[0].0, steps[0].1) && Interleaving(Next(s, steps[0].0, steps[0].1), steps[1..])
  }

  ghost function Last(s: System, steps: seq<(nat, string)>): System
    requires Interleaving(s, steps)
    decreases |steps|
  {
    if steps == [] then s else Last(Next(s, steps[0].0, steps[0].1), steps[1..])
  }

  /** The atomic transactions of an interleaving, in the order in which they end. */
  ghost function Serial(s: System, steps: seq<(nat, string)>): seq<Step>
    requires Interleaving(s, steps)
    decreases |steps|
  {
    if steps == [] then []
    else
      var (tid, pick) := steps[0];
      var rest := Serial(Next(s, tid, pick), steps[1..]);
      if Ends(s, tid, pick) then [AtomicOf(s.txns[tid])] + rest else rest
  }

  /** Transactions that have not begun, with fresh ids, are a system in order. */
  lemma FreshStartIsOk(s: System)
    requires FreshIds(s)
    requires forall a :: a in s.txns ==> s.txns[a] == Begun(s.txns[a].op)
    ensures SystemOk(s)
  {
  }

  /** Every interleaving of the statements is equivalent to running its transactions one after
      the other, so everything proved of atomic runs holds of it: the balances stay true, and no
      hold is settled twice. */
  lemma {:induction false} InterleavingIsSerial(env: Env, s: System, steps: seq<(nat, string)>)
    requires SystemOk(s) && Inv(env, s.db) && Interleaving(s, steps)
    ensures SystemOk(Last(s, steps)) && Inv(env, Last(s, steps).db)
    ensures ValidRun(env, s.db, Serial(s, steps))
    ensures Last(s, steps).db == Final(env, s.db, Serial(s, steps))
    ensures HoldsOnlyAge(s.db, Last(s, steps).db)
    decreases |steps|
  {
    hide SystemOk, Inv, Apply, Admissible, Next, Statement, HoldsOnlyAge;
    if steps != [] {
      var (tid, pick) := steps[0];
      var next := Next(s, tid, pick);
      StepRefines(env, s, tid, pick);
      if Ends(s, tid, pick) {
        var atomic := AtomicOf(s.txns[tid]);
        StepKeeps(env, s.db, atomic);
        InterleavingIsSerial(env, next, steps[1..]);
        assert ([atomic] + Serial(next, steps[1..]))[1..] == Serial(next, steps[1..]);
      } else {
        InterleavingIsSerial(env, next, steps[1..]);
      }
    }
    EveryRunAges(env, s.db, Serial(s, steps));
  }

  /* ----- No transaction that holds a lock waits, so none wait for ever ----- */

  /** A locked hold row belongs to an organization whose row is locked too, or is the new row of a
      hold being placed there: this is what the lock order, organization before hold, buys. */
  lemma RowsAreUnderLockedOrgs(db: Db, t: Txn, h: string)
    requires TxnOk(db, t) && h in t.rows
    ensures t.locks != {}
    ensures if h in db.holds && !(t.op.PlaceOp? && h == t.op.id) then db.holds[h].org in t.locks
            else Inserting(t) && h == t.op.id
  {
    WritesAreLocked(db, t);
  }

  /** No hold row is locked twice. */
  lemma RowsDisjoint(s: System, a: nat, b: nat)
    requires SystemOk(s) && a in s.txns && b in s.txns && a != b
    ensures s.txns[a].rows !! s.txns[b].rows
  {
    forall h | h in s.txns[a].rows && h in s.txns[b].rows
      ensures false
    {
      RowsAreUnderLockedOrgs(s.db, s.txns[a], h);
      RowsAreUnderLockedOrgs(s.db, s.txns[b], h);
    }
  }

  /** A hold row of a locked organization, and the row of a hold about to be placed, is locked by
      nobody else. */
  lemma RowIsFree(s: System, tid: nat, h: string)
    requires SystemOk(s) && tid in s.txns
    requires if h in s.db.holds then s.db.holds[h].org in s.txns[tid].locks
             else Inserting(s.txns[tid]) && h == s.txns[tid].op.id
    ensures h !in Taken(s, tid).rows
  {
    forall u | u in s.txns && u != tid
      ensures h !in s.txns[u].rows
    {
      if h in s.txns[u].rows {
        RowsAreUnderLockedOrgs(s.db, s.txns[u], h);
      }
    }
  }

  /** What a transaction with a lock needs next are rows of the organizations it has locked. */
  lemma NeedsAreUnderLockedOrgs(db: Db, t: Txn, pick: string)
    requires TxnOk(db, t) && t.locks != {} && Asks(t, pick)
    ensures Needs(db, t, pick).orgs <= t.locks
    ensures forall h :: h in Needs(db, t, pick).rows ==>
              if h in db.holds then db.holds[h].org in t.locks || (t.op.PlaceOp? && h == t.op.id)
              else Inserting(t) && h == t.op.id
  {
    WritesAreLocked(db, t);
  }

  /** A transaction that holds a row lock never waits for another one, whichever organization it
      turns to next. */
  lemma LockHoldersNeverWait(s: System, tid: nat, pick: string)
    requires SystemOk(s) && tid in s.txns && (s.txns[tid].locks != {} || s.txns[tid].rows != {})
    ensures !Waits(s, tid, pick)
    ensures Asks(s.txns[tid], pick) ==> CanStep(s, tid, pick)
  {
    var t := s.txns[tid];
    if h :| h in t.rows {
      RowsAreUnderLockedOrgs(s.db, t, h);
    }
    if Asks(t, pick) {
      NeedsAreUnderLockedOrgs(s.db, t, pick);
      TakenIsOthers(s, tid);
      forall h | h in Needs(s.db, t, pick).rows
        ensures h !in Taken(s, tid).rows
      {
        RowIsFree(s, tid, h);
      }
    }
  }

  /** As long as a transaction is unfinished, some transaction can go on. */
  lemma NoDeadlock(s: System, tid: nat)
    requires SystemOk(s) && tid in s.txns && !s.txns[tid].pc.Done?
    ensures exists u, pick :: CanStep(s, u, pick)
  {
    if u :| u in s.txns && (s.txns[u].locks != {} || s.txns[u].rows != {}) {
      var pick := SomePick(s.db, s.txns[u]);
      LockHoldersNeverWait(s, u, pick);
    } else {
      assert Taken(s, tid).orgs == {} && Taken(s, tid).rows == {};
      assert CanStep(s, tid, "");
    }
  }

  lemma SomePick(db: Db, t: Txn) returns (pick: string)
    requires TxnOk(db, t) && (t.locks != {} || t.rows != {})
    ensures Asks(t, pick)
  {
    pick := "";
    if t.pc.Sweeping? && t.pc.todo != {} {
      pick :| pick in t.pc.todo;
    }
  }

  /** Why the order matters: had a transaction locked the hold before its organization, it and
      another one that locked the organization first would wait for each other for ever. */
  lemma HoldFirstWouldDeadlock()
    ensures var db := Db(map["o" := Org(10, 0, 5)], map["h" := Hold("o", 5, 0, false)], map[], map[]);
            var orgFirst := Txn(ReleaseOp("h"), Locked("o"), {"o"}, {}, map[], map[]);
            var holdFirst := Txn(ReleaseOp("h"), Found("o"), {}, {"h"}, map[], map[]);
            var s := System(db, map[0 := orgFirst, 1 := holdFirst]);
            && TxnOk(db, orgFirst) && !TxnOk(db, holdFirst)
            && forall tid, pick :: tid in s.txns ==> Waits(s, tid, pick)
  {
    var db := Db(map["o" := Org(10, 0, 5)], map["h" := Hold("o", 5, 0, false)], map[], map[]);
    var orgFirst := Txn(ReleaseOp("h"), Locked("o"), {"o"}, {}, map[], map[]);
    var holdFirst := Txn(ReleaseOp("h"), Found("o"), {}, {"h"}, map[], map[]);
    var s := System(db, map[0 := orgFirst, 1 := holdFirst]);
    forall tid, pick | tid in s.txns
      ensures Waits(s, tid, pick)
    {
      assert "h" in s.txns[1].rows && "h" in Taken(s, 0).rows;
      assert "o" in s.txns[0].locks && "o" in Taken(s, 1).orgs;
      assert "h" in Needs(db, orgFirst, pick).rows && "o" in Needs(db, holdFirst, pick).orgs;
    }
  }
}
