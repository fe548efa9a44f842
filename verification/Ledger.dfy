/** The credit tables and the meaning of each billing transaction as one atomic step on them. */
module Ledger {
  import opened Wrappers
  import opened Sums
  import HoldPlan

  datatype Org = Org(granted: int, used: int, remaining: int)

  /** Times are in microseconds, as the database keeps them. */
  datatype Hold = Hold(org: string, amount: int, expires: int, settled: bool)

  datatype Status = Success | Failure

  datatype Request = Request(org: string, status: Status, inputTokens: int, outputTokens: int)

  datatype EntryType = Grant | Usage

  datatype Entry = Entry(org: string, kind: EntryType, amount: int)

  datatype Db = Db(
    orgs: map<string, Org>,
    holds: map<string, Hold>,
    requests: map<string, Request>,
    ledger: map<string, Entry>)

  datatype TxError =
    | OrganizationRequired
    | InsufficientCredits
    | PlanRefused(error: HoldPlan.PlanError)
    | OrganizationMissing
    | ForeignKey
    | KeyRequired
    | AmountNotPositive

  datatype Outcome<T> = Committed(db: Db, value: T) | RolledBack(error: TxError)

  /** The committed tables after a transaction: a rolled-back one leaves no trace. */
  function After<T>(db: Db, outcome: Outcome<T>): Db {
    match outcome
    case Committed(db', _) => db'
    case RolledBack(_) => db
  }

  /** What the caller of a transaction is told. */
  function Reply<T>(outcome: Outcome<T>): Result<T, TxError> {
    match outcome
    case Committed(_, v) => Ok(v)
    case RolledBack(e) => Err(e)
  }

  /* ----- Sums over the tables ----- */

  predicate Expired(h: Hold, now: int) {
    !h.settled && h.expires < now
  }

  function OpenHolds(db: Db, o: string): map<string, int> {
    map h | h in db.holds && db.holds[h].org == o && !db.holds[h].settled :: db.holds[h].amount
  }

  function ExpiredHolds(db: Db, o: string, now: int): map<string, int> {
    map h | h in db.holds && db.holds[h].org == o && Expired(db.holds[h], now) :: db.holds[h].amount
  }

  function Entries(db: Db, o: string, kind: EntryType): map<string, int> {
    map k | k in db.ledger && db.ledger[k].org == o && db.ledger[k].kind == kind :: db.ledger[k].amount
  }

  ghost function Frozen(db: Db, o: string): int {
    Sum(OpenHolds(db, o))
  }

  ghost function LedgerSum(db: Db, o: string, kind: EntryType): int {
    Sum(Entries(db, o, kind))
  }

  /** The organization's cached balances agree with the append-only ledger and the open holds. */
  ghost predicate Balanced(db: Db, o: string)
    requires o in db.orgs
  {
    var org := db.orgs[o];
    && org.granted == LedgerSum(db, o, Grant)
    && org.used == LedgerSum(db, o, Usage)
    && org.remaining + Frozen(db, o) == org.granted - org.used
  }

  ghost predicate Conserved(db: Db) {
    forall o :: o in db.orgs ==> Balanced(db, o)
  }

  /* ----- Reclaiming expired holds ----- */

  /** Every expired hold of the given organizations is settled and its amount returned. */
  ghost function SweepTx(db: Db, orgs: set<string>, now: int): Db {
    db.(
    orgs := map o | o in db.orgs ::
      if o in orgs then db.orgs[o].(remaining := db.orgs[o].remaining + Sum(ExpiredHolds(db, o, now))) else db.orgs[o],
    holds := map h | h in db.holds ::
      if db.holds[h].org in orgs && Expired(db.holds[h], now) then db.holds[h].(settled := true) else db.holds[h])
  }

  /** The organizations the sweeper finds work for. */
  function ExpiredOrgs(db: Db, now: int): set<string> {
    set o | o in db.orgs && exists h :: h in db.holds && db.holds[h].org == o && Expired(db.holds[h], now)
  }

  function ExpiredIn(db: Db, orgs: set<string>, now: int): set<string> {
    set h | h in db.holds && db.holds[h].org in orgs && Expired(db.holds[h], now)
  }

  /* ----- Placing a hold ----- */

  type Planner = int -> Result<HoldPlan.Plan, HoldPlan.PlanError>

  datatype PlacedHold = PlacedHold(id: string, amount: int, maxTokens: int, org: string, before: int, after: int)

  const NANOS_PER_SECOND := 1_000_000_000

  const MICROS_PER_SECOND := 1_000_000

  function ExpiresAt(now: int, ttlNanos: int): int {
    var ttl := if ttlNanos < NANOS_PER_SECOND then 60 * NANOS_PER_SECOND else ttlNanos;
    now + ttl / NANOS_PER_SECOND * MICROS_PER_SECOND
  }

  ghost function PlaceHoldTx(db: Db, org: string, threshold: int, ttlNanos: int, plan: Planner, id: string, now: int)
    : Outcome<PlacedHold>
  {
    if org == "" then RolledBack(OrganizationRequired)
    else if org !in db.orgs then RolledBack(InsufficientCredits)
    else
      var swept := SweepTx(db, {org}, now);
      var remaining := swept.orgs[org].remaining;
      match plan(remaining)
      case Err(e) => RolledBack(PlanRefused(e))
      case Ok(p) =>
        if p.amount < 1 || p.maxTokens < 1 || remaining < p.amount || remaining < threshold then
          RolledBack(InsufficientCredits)
        else
          Committed(
            swept.(orgs := swept.orgs[org := swept.orgs[org].(remaining := remaining - p.amount)],
                   holds := swept.holds[id := Hold(org, p.amount, ExpiresAt(now, ttlNanos), false)]),
            PlacedHold(id, p.amount, p.maxTokens, org, remaining, remaining - p.amount))
  }

  /* ----- Settling a hold ----- */

  datatype SettleResult = SettleResult(
    found: bool, applied: bool, org: string, amount: int, actual: int, refund: int, before: int, after: int)

  const NothingSettled := SettleResult(false, false, "", 0, 0, 0, 0, 0)

  function SettleTx(db: Db, hold: string, actualMicros: int): Outcome<SettleResult> {
    var actual := if actualMicros < 0 then 0 else actualMicros;
    if hold == "" || hold !in db.holds then Committed(db, NothingSettled)
    else
      var h := db.holds[hold];
      if h.org !in db.orgs then RolledBack(OrganizationMissing)
      else
        var org := db.orgs[h.org];
        if h.settled then
          Committed(db, SettleResult(true, false, h.org, h.amount, actual, 0, org.remaining, 0))
        else
          Committed(
            db.(holds := db.holds[hold := h.(settled := true)],
                orgs := db.orgs[h.org := org.(remaining := org.remaining + h.amount - actual, used := org.used + actual)]),
            SettleResult(true, true, h.org, h.amount, actual, h.amount - actual, org.remaining, org.remaining + h.amount - actual))
  }

  function Debit(db: Db, org: string, amount: int): Db {
    if org == "" || amount <= 0 || org !in db.orgs then db
    else
      var o := db.orgs[org];
      db.(orgs := db.orgs[org := o.(used := o.used + amount, remaining := o.remaining - amount)])
  }

  /* ----- Recording a finished call ----- */

  datatype RecordParams = RecordParams(
    key: string, org: string, status: Status, inputTokens: int, outputTokens: int, amount: int, hold: string)

  function UsageKey(key: string): string {
    "usage:" + key
  }

  function Actual(p: RecordParams): int {
    if p.status == Success then p.amount else 0
  }

  /** This call writes a usage row: it is billable and no earlier attempt wrote one. */
  predicate InsertsUsage(db: Db, p: RecordParams) {
    p.amount > 0 && p.status == Success && UsageKey(p.key) !in db.ledger
  }

  function WithRequest(db: Db, p: RecordParams): Db {
    if p.key in db.requests then db
    else db.(requests := db.requests[p.key := Request(p.org, p.status, p.inputTokens, p.outputTokens)])
  }

  function WithUsage(db: Db, p: RecordParams): Db {
    if InsertsUsage(db, p) then db.(ledger := db.ledger[UsageKey(p.key) := Entry(p.org, Usage, p.amount)]) else db
  }

  function RecordTx(db: Db, p: RecordParams): Outcome<SettleResult> {
    if p.key == "" then RolledBack(KeyRequired)
    else if p.org !in db.orgs && (p.key !in db.requests || InsertsUsage(db, p)) then RolledBack(ForeignKey)
    else
      var inserted := InsertsUsage(db, p);
      var logged := WithUsage(WithRequest(db, p), p);
      if p.hold != "" then
        match SettleTx(logged, p.hold, Actual(p))
        case RolledBack(e) => RolledBack(e)
        case Committed(db', s) =>
          Committed(if !s.applied && s.found && inserted then Debit(db', s.org, Actual(p)) else db', s)
      else
        Committed(if inserted then Debit(logged, p.org, p.amount) else logged, NothingSettled)
  }

  /* ----- Granting credits ----- */

  datatype GrantParams = GrantParams(org: string, amount: int, key: string)

  function GrantTx(db: Db, p: GrantParams): Outcome<()> {
    if p.key == "" then RolledBack(KeyRequired)
    else if p.amount <= 0 then RolledBack(AmountNotPositive)
    else if p.key in db.ledger then Committed(db, ())
    else if p.org !in db.orgs then RolledBack(ForeignKey)
    else
      var o := db.orgs[p.org];
      Committed(
        db.(ledger := db.ledger[p.key := Entry(p.org, Grant, p.amount)],
            orgs := db.orgs[p.org := o.(granted := o.granted + p.amount, remaining := o.remaining + p.amount)]),
        ())
  }
}
