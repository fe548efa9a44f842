/** Subscription events as they are really delivered: duplicated, reordered, several at a time, and
    broken off between any two statements. */
module Deliveries {
  import opened Wrappers
  import opened Text
  import opened Subscriptions
  import L = Ledger

  /* ----- Idempotency keys ----- */

  const PERIOD_PREFIX := "dodo_period:"

  function LegacyKey(subscription: string, period: string): string {
    PERIOD_PREFIX + (subscription + ":" + period)
  }

  function PlanKey(subscription: string, plan: string, period: string): string {
    PERIOD_PREFIX + (subscription + ":" + (plan + ":" + period))
  }

  function SubscriptionGrantKey(subscription: string, incomingPlan: string, currentPlan: string,
                                eventType: string, period: string, org: string, legacyGranted: bool): string {
    if subscription == "" then "dodo_event:" + (eventType + ":" + period + ":" + org)
    else if incomingPlan == "" || (incomingPlan == currentPlan && legacyGranted) then LegacyKey(subscription, period)
    else PlanKey(subscription, incomingPlan, period)
  }

  predicate ColonFree(s: string) {
    ':' !in s
  }

  lemma SplitAtColon(a: string, b: string, c: string, d: string)
    requires ColonFree(a) && ColonFree(c) && a + ":" + b == c + ":" + d
    ensures a == c && b == d
  {
    var s := a + ":" + b;
    assert s[|a|] == ':' && s[|c|] == ':';
    assert forall i :: 0 <= i < |a| ==> s[i] == a[i];
    assert forall i :: 0 <= i < |c| ==> s[i] == c[i];
    assert |a| == |c|;
    assert a == s[..|a|] && c == s[..|c|];
    assert b == s[|a| + 1..] && d == s[|c| + 1..];
  }

  lemma SamePrefix(a: string, b: string)
    ensures PERIOD_PREFIX + a == PERIOD_PREFIX + b ==> a == b
  {
    assert (PERIOD_PREFIX + a)[|PERIOD_PREFIX|..] == a;
    assert (PERIOD_PREFIX + b)[|PERIOD_PREFIX|..] == b;
  }

  /** Different subscriptions, plans or months have different keys. */
  lemma PlanKeyInjective(s: string, p: string, m: string, s': string, p': string, m': string)
    requires ColonFree(s) && ColonFree(p) && ColonFree(s') && ColonFree(p')
    requires PlanKey(s, p, m) == PlanKey(s', p', m')
    ensures s == s' && p == p' && m == m'
  {
    SamePrefix(s + ":" + (p + ":" + m), s' + ":" + (p' + ":" + m'));
    SplitAtColon(s, p + ":" + m, s', p' + ":" + m');
    SplitAtColon(p, m, p', m');
  }

  ghost predicate IsLegacy(key: string) {
    exists s, m :: ColonFree(s) && ColonFree(m) && key == LegacyKey(s, m)
  }

  lemma PlanKeyIsNotLegacy(s: string, p: string, m: string)
    requires ColonFree(s)
    ensures !IsLegacy(PlanKey(s, p, m))
  {
    forall s', m' | ColonFree(s') && PlanKey(s, p, m) == LegacyKey(s', m')
      ensures !ColonFree(m')
    {
      SamePrefix(s + ":" + (p + ":" + m), s' + ":" + m');
      SplitAtColon(s, p + ":" + m, s', m');
      assert m'[|p|] == ':';
    }
  }

  predicate IsPeriodKey(key: string) {
    PERIOD_PREFIX <= key
  }

  lemma EventKeyIsNoPeriodKey(rest: string)
    ensures !IsPeriodKey("dodo_event:" + rest) && !IsLegacy("dodo_event:" + rest)
  {
    assert ("dodo_event:" + rest)[5] == 'e';
    assert PERIOD_PREFIX[5] == 'p';
    forall s, m
      ensures |LegacyKey(s, m)| > 5 && LegacyKey(s, m)[5] == 'p'
    {
    }
  }

  /* ----- The stored state and one delivery's statements ----- */

  /** What the invoices list per organization changes from outside; a mandate that the provider
      was asked to cancel is logged. */
  datatype Shop = Shop(
    db: L.Db,
    planOf: map<string, string>,
    mandateOf: map<string, string>,
    refs: map<string, seq<Ref>>,
    cancelled: seq<string>)

  function Get(m: map<string, string>, org: string): string {
    if org in m then m[org] else ""
  }

  function RefsOf(s: Shop, org: string): seq<Ref> {
    if org in s.refs then s.refs[org] else []
  }

  /** An event after its organization, subscription and plan have been resolved; the period is the
      month in which it is handled. */
  datatype Delivery = Delivery(org: string, subscription: string, plan: string, credits: int, eventType: string, period: string)

  datatype Pc =
    | Fresh
    | Gating(previous: string)
    | Weighing(previous: string, stored: string)
    | Checking(previous: string)
    | Granting(previous: string, legacy: bool)
    | Attaching(previous: string)
    | Persisting(previous: string)
    | Reweighing(previous: string, stored: string)
    | Storing(stored: string)
    | Replacing(stored: string)
    | Keeping(previous: string)
    | Cancelling(ids: seq<string>)
    | Finished
    | Failed

  function Ends(pc: Pc): bool {
    pc.Finished? || pc.Failed?
  }

  function MandateOf(s: Shop, d: Delivery): string {
    Trim(Get(s.mandateOf, d.org))
  }

  /** The decision on a stored mandate that was read before. */
  function Weigh(plans: Catalogue, s: Shop, d: Delivery, previous: string, stored: string): Action {
    Decision(plans, RefsOf(s, d.org), stored, d.subscription, d.plan, previous)
  }

  function DecisionOf(plans: Catalogue, s: Shop, d: Delivery, previous: string): Action {
    Weigh(plans, s, d, previous, MandateOf(s, d))
  }

  /** The decision that gates the grant. */
  function Gate(plans: Catalogue, s: Shop, d: Delivery, previous: string): Action {
    if d.subscription == "" then Adopt else DecisionOf(plans, s, d, previous)
  }

  function GrantParamsOf(d: Delivery, previous: string, legacy: bool): L.GrantParams {
    L.GrantParams(d.org, d.credits,
                  SubscriptionGrantKey(d.subscription, d.plan, previous, d.eventType, d.period, d.org, legacy))
  }

  function Rank(plans: Catalogue, slug: string): int {
    if slug in plans then plans[slug].order else 0
  }

  function Attach(plans: Catalogue, s: Shop, org: string, plan: string): Option<Shop> {
    if plan == "" then Some(s)
    else if plan !in plans || org !in s.db.orgs then None
    else Some(if Rank(plans, Get(s.planOf, org)) <= plans[plan].order then s.(planOf := s.planOf[org := plan]) else s)
  }

  function Store(s: Shop, org: string, subscription: string): Option<Shop> {
    if Trim(subscription) == "" then Some(s)
    else if org !in s.db.orgs then None
    else Some(s.(mandateOf := s.mandateOf[org := Trim(subscription)]))
  }

  function Ids(refs: seq<Ref>): (ids: seq<string>)
    ensures |ids| == |refs|
  {
    seq(|refs|, i requires 0 <= i < |refs| => refs[i].id)
  }

  function Ranked(plans: Catalogue, refs: seq<Ref>): (rs: seq<RankedRef>)
    ensures |rs| == |refs|
  {
    seq(|refs|, i requires 0 <= i < |refs| =>
      RankedRef(refs[i].id, SortOrder(plans, refs[i].plan).0, SortOrder(plans, refs[i].plan).1))
  }

  function Priors(s: Shop, d: Delivery, stored: string): seq<string> {
    Distinct([stored] + Ids(RefsOf(s, d.org)), Excluded(d.subscription))
  }

  function Leftovers(plans: Catalogue, s: Shop, d: Delivery, previous: string): seq<string> {
    var (order, known) := SortOrder(plans, HigherPlan(plans, d.plan, previous));
    StaleIDs(d.subscription, order, known, Ranked(plans, RefsOf(s, d.org)))
  }

  function AfterGate(d: Delivery, previous: string, action: Action): Pc {
    if action in {Adopt, Keep} && d.credits > 0 && d.plan != "" then Checking(previous) else Persisting(previous)
  }

  /** One statement of one delivery. */
  function Step(plans: Catalogue, s: Shop, d: Delivery, pc: Pc): (Shop, Pc) {
    match pc
    case Fresh => (s, if d.org == "" then Finished else Gating(Get(s.planOf, d.org)))
    case Gating(previous) =>
      (s, if d.subscription == "" then AfterGate(d, previous, Adopt) else Weighing(previous, MandateOf(s, d)))
    case Weighing(previous, stored) => (s, AfterGate(d, previous, Weigh(plans, s, d, previous, stored)))
    case Checking(previous) =>
      (s, Granting(previous, d.subscription != "" && LegacyKey(d.subscription, d.period) in s.db.ledger))
    case Granting(previous, legacy) =>
      (match L.GrantTx(s.db, GrantParamsOf(d, previous, legacy))
       case Committed(db, _) => (s.(db := db), Attaching(previous))
       case RolledBack(_) => (s, Failed))
    case Attaching(previous) =>
      (match Attach(plans, s, d.org, d.plan)
       case Some(s') => (s', Persisting(previous))
       case None => (s, Failed))
    case Persisting(previous) =>
      (s, if d.subscription == "" then Finished else Reweighing(previous, MandateOf(s, d)))
    case Reweighing(previous, stored) =>
      (match Weigh(plans, s, d, previous, stored)
       case Keep => (s, Keeping(previous))
       case Defer => (s, Finished)
       case Stale => (s, Cancelling([d.subscription]))
       case Adopt => (s, Storing(stored)))
    case Storing(stored) =>
      (match Store(s, d.org, d.subscription)
       case Some(s') => (s', Replacing(stored))
       case None => (s, Failed))
    case Replacing(stored) => (s, Cancelling(Priors(s, d, stored)))
    case Keeping(previous) => (s, Cancelling(Leftovers(plans, s, d, previous)))
    case Cancelling(ids) =>
      if ids == [] then (s, Finished) else (s.(cancelled := s.cancelled + [ids[0]]), Cancelling(ids[1..]))
    case Finished => (s, pc)
    case Failed => (s, pc)
  }

  /* ----- Many deliveries at a time ----- */

  /** Gated: the decision let the delivery through to its grant. */
  datatype Job = Job(d: Delivery, pc: Pc, gated: bool)

  /** The log lists the deliveries whose grant statement inserted a ledger row, in order. */
  datatype World = World(shop: Shop, jobs: map<nat, Job>, inserted: seq<Delivery>)

  datatype Move =
    | Arrive(job: nat, d: Delivery)        // a first delivery, or any redelivery
    | Work(job: nat)                       // one statement of one delivery
    | Misread(job: nat)                    // the plan cannot be read and counts as none
    | Crash(job: nat)                      // a delivery breaks off for good
    | Elsewhere(db: L.Db)                  // another service changes the credit tables
    | Invoices(org: string, refs: seq<Ref>)

  /** Identifiers of subscriptions and plans and the month have no colon. */
  predicate Resolved(d: Delivery) {
    ColonFree(d.subscription) && ColonFree(d.plan) && ColonFree(d.period) && Trim(d.subscription) == d.subscription
  }

  /** Other services never delete an organization or a ledger row and never write a row under a
      subscription's key. */
  ghost predicate Possible(w: World, m: Move) {
    match m
    case Arrive(job, d) => job !in w.jobs && Resolved(d)
    case Work(job) => job in w.jobs
    case Misread(job) => job in w.jobs && w.jobs[job].pc.Fresh? && w.jobs[job].d.org != ""
    case Crash(job) => job in w.jobs
    case Elsewhere(db) =>
      && w.shop.db.orgs.Keys <= db.orgs.Keys
      && (forall k :: k in w.shop.db.ledger ==> k in db.ledger && db.ledger[k] == w.shop.db.ledger[k])
      && (forall k :: k in db.ledger && IsPeriodKey(k) ==> k in w.shop.db.ledger)
    case Invoices(_, _) => true
  }

  /** The job's next statement inserts a row. */
  predicate Inserts(s: Shop, j: Job) {
    && j.pc.Granting?
    && L.GrantTx(s.db, GrantParamsOf(j.d, j.pc.previous, j.pc.legacy)).Committed?
    && GrantParamsOf(j.d, j.pc.previous, j.pc.legacy).key !in s.db.ledger
  }

  ghost function Next(plans: Catalogue, w: World, m: Move): World
    requires Possible(w, m)
  {
    match m
    case Arrive(job, d) => w.(jobs := w.jobs[job := Job(d, Fresh, false)])
    case Work(job) =>
      var j := w.jobs[job];
      var (shop, pc) := Step(plans, w.shop, j.d, j.pc);
      World(shop, w.jobs[job := Job(j.d, pc, j.gated || pc.Checking?)], if Inserts(w.shop, j) then w.inserted + [j.d] else w.inserted)
    case Misread(job) => w.(jobs := w.jobs[job := w.jobs[job].(pc := Gating(""))])
    case Crash(job) => w.(jobs := w.jobs[job := w.jobs[job].(pc := Failed)])
    case Elsewhere(db) => w.(shop := w.shop.(db := db))
    case Invoices(org, refs) => w.(shop := w.shop.(refs := w.shop.refs[org := refs]))
  }

  ghost predicate Run(plans: Catalogue, w: World, moves: seq<Move>)
    decreases |moves|
  {
    moves != [] ==> Possible(w, moves[0]) && Run(plans, Next(plans, w, moves[0]), moves[1..])
  }

  ghost function Final(plans: Catalogue, w: World, moves: seq<Move>): World
    requires Run(plans, w, moves)
    decreases |moves|
  {
    if moves == [] then w else Final(plans, Next(plans, w, moves[0]), moves[1..])
  }

  /* ----- Once per subscription, plan and month ----- */

  function KeyOf(d: Delivery): string {
    PlanKey(d.subscription, d.plan, d.period)
  }

  predicate SameTriple(a: Delivery, b: Delivery) {
    a.subscription == b.subscription && a.plan == b.plan && a.period == b.period
  }

  /** The delivery passed the gate and got past its grant. */
  predicate HasGranted(j: Job) {
    j.gated && !j.pc.Checking? && !j.pc.Granting? && !j.pc.Failed?
  }

  ghost predicate NoLegacyRows(s: Shop) {
    forall k :: k in s.db.ledger ==> !IsLegacy(k)
  }

  ghost predicate LogOk(w: World, before: map<string, L.Entry>) {
    && (forall i :: 0 <= i < |w.inserted| ==> Resolved(w.inserted[i]))
    && (forall i :: 0 <= i < |w.inserted| && w.inserted[i].subscription != "" ==>
          && KeyOf(w.inserted[i]) !in before
          && KeyOf(w.inserted[i]) in w.shop.db.ledger
          && w.shop.db.ledger[KeyOf(w.inserted[i])] == L.Entry(w.inserted[i].org, L.Grant, w.inserted[i].credits))
    && (forall i, j :: 0 <= i < j < |w.inserted| && w.inserted[i].subscription != "" ==> !SameTriple(w.inserted[i], w.inserted[j]))
    && (forall k :: k in w.shop.db.ledger && IsPeriodKey(k) && k !in before ==>
          exists i :: 0 <= i < |w.inserted| && w.inserted[i].subscription != "" && k == KeyOf(w.inserted[i]))
  }

  ghost predicate JobOk(s: Shop, j: Job) {
    && Resolved(j.d)
    && (j.gated ==> j.d.plan != "" && j.d.credits > 0)
    && (j.gated ==> !j.pc.Fresh? && !j.pc.Gating? && !j.pc.Weighing?)
    && (j.pc.Checking? || j.pc.Granting? || j.pc.Attaching? ==> j.gated)
    && (j.pc.Granting? ==> !j.pc.legacy)
    && (HasGranted(j) && j.d.subscription != "" ==> KeyOf(j.d) in s.db.ledger)
  }

  ghost predicate Inv(w: World, before: map<string, L.Entry>) {
    && NoLegacyRows(w.shop)
    && LogOk(w, before)
    && forall t :: t in w.jobs ==> JobOk(w.shop, w.jobs[t])
  }

  /** Between two ledgers nothing disappears, and nothing appears under a legacy key. */
  ghost predicate LedgerGrows(a: map<string, L.Entry>, b: map<string, L.Entry>) {
    && (forall k :: k in a ==> k in b && b[k] == a[k])
    && (forall k :: k in b && k !in a ==> !IsLegacy(k))
  }

  lemma JobsStayOk(s: Shop, s': Shop, j: Job)
    requires JobOk(s, j) && LedgerGrows(s.db.ledger, s'.db.ledger)
    ensures JobOk(s', j)
  {
  }

  /** A statement other than the grant leaves the credit tables alone, and only the gate leads
      to the grant. */
  lemma OnlyGrantsTouchCredits(plans: Catalogue, s: Shop, d: Delivery, pc: Pc)
    requires !pc.Granting?
    ensures var (s', pc') := Step(plans, s, d, pc);
            && s'.db == s.db
            && !pc'.Fresh? && !pc'.Attaching?
            && (pc'.Gating? ==> pc.Fresh?)
            && (pc'.Weighing? ==> pc.Gating?)
            && (pc'.Checking? ==>
                  && d.plan != "" && d.credits > 0
                  && ((pc.Gating? && d.subscription == "")
                      || (pc.Weighing? && Weigh(plans, s, d, pc.previous, pc.stored) in {Adopt, Keep})))
            && (pc'.Granting? ==> pc.Checking? && pc'.legacy == (d.subscription != "" && LegacyKey(d.subscription, d.period) in s.db.ledger))
  {
    hide Weigh, MandateOf, LegacyKey, Attached, Priors, Leftovers;
  }

  /** The key under which a gated delivery grants: never a legacy one. */
  lemma GrantKey(s: Shop, j: Job)
    requires JobOk(s, j) && j.pc.Granting?
    ensures var k := GrantParamsOf(j.d, j.pc.previous, j.pc.legacy).key;
            && (j.d.subscription != "" ==> k == KeyOf(j.d))
            && (j.d.subscription == "" ==> !IsPeriodKey(k))
            && !IsLegacy(k)
  {
    if j.d.subscription != "" {
      PlanKeyIsNotLegacy(j.d.subscription, j.d.plan, j.d.period);
    } else {
      EventKeyIsNoPeriodKey(j.d.eventType + ":" + j.d.period + ":" + j.d.org);
    }
  }

  /** What the grant statement does to ledger and log. */
  ghost predicate GrantEffect(w: World, j: Job, w': World)
    requires j.pc.Granting?
  {
    var k := GrantParamsOf(j.d, j.pc.previous, j.pc.legacy).key;
    if Inserts(w.shop, j) then
      && k !in w.shop.db.ledger
      && w'.shop.db.ledger == w.shop.db.ledger[k := L.Entry(j.d.org, L.Grant, j.d.credits)]
      && w'.inserted == w.inserted + [j.d]
    else
      w'.shop.db.ledger == w.shop.db.ledger && w'.inserted == w.inserted
  }

  lemma GrantStatement(plans: Catalogue, w: World, t: nat)
    requires t in w.jobs && w.jobs[t].pc.Granting?
    ensures var w' := Next(plans, w, Work(t));
            && GrantEffect(w, w.jobs[t], w')
            && w'.jobs == w.jobs[t := w'.jobs[t]]
            && w'.jobs[t].d == w.jobs[t].d && w'.jobs[t].gated == w.jobs[t].gated
            && (w'.jobs[t].pc.Attaching? || w'.jobs[t].pc.Failed?)
            && (w'.jobs[t].pc.Attaching? ==>
                  GrantParamsOf(w.jobs[t].d, w.jobs[t].pc.previous, w.jobs[t].pc.legacy).key in w'.shop.db.ledger)
  {
  }

  lemma GrantKeepsLog(w: World, before: map<string, L.Entry>, j: Job, w': World)
    requires LogOk(w, before) && JobOk(w.shop, j) && j.pc.Granting? && GrantEffect(w, j, w')
    requires before.Keys <= w.shop.db.ledger.Keys
    ensures LogOk(w', before)
    ensures LedgerGrows(w.shop.db.ledger, w'.shop.db.ledger)
  {
    hide PlanKey, SubscriptionGrantKey, LogOk, KeyOf, IsPeriodKey, GrantParamsOf, IsLegacy;
    GrantKey(w.shop, j);
    var k := GrantParamsOf(j.d, j.pc.previous, j.pc.legacy).key;
    if Inserts(w.shop, j) {
      InsertKeepsLog(w, before, k, j.d, w');
    } else {
      SameLog(w, before, w');
    }
  }

  lemma SameLog(w: World, before: map<string, L.Entry>, w': World)
    requires LogOk(w, before) && w'.inserted == w.inserted && w'.shop.db.ledger == w.shop.db.ledger
    ensures LogOk(w', before)
  {
  }

  lemma InsertKeepsLog(w: World, before: map<string, L.Entry>, k: string, d: Delivery, w': World)
    requires LogOk(w, before) && Resolved(d)
    requires k !in w.shop.db.ledger && before.Keys <= w.shop.db.ledger.Keys
    requires if d.subscription != "" then k == KeyOf(d) else !IsPeriodKey(k)
    requires w'.shop.db.ledger == w.shop.db.ledger[k := L.Entry(d.org, L.Grant, d.credits)]
    requires w'.inserted == w.inserted + [d]
    ensures LogOk(w', before)
  {
    hide PlanKey, IsPeriodKey, Resolved;
    var n := |w.inserted|;
    assert w'.inserted[n] == d;
    forall i | 0 <= i < n
      ensures w'.inserted[i] == w.inserted[i]
      ensures w.inserted[i].subscription != "" ==> KeyOf(w.inserted[i]) != k && !SameTriple(w.inserted[i], d)
    {
      assert SameTriple(w.inserted[i], d) ==> KeyOf(w.inserted[i]) == KeyOf(d);
    }
  }

  lemma OtherStatement(plans: Catalogue, w: World, t: nat)
    requires t in w.jobs && !w.jobs[t].pc.Granting? && JobOk(w.shop, w.jobs[t]) && NoLegacyRows(w.shop)
    ensures var w' := Next(plans, w, Work(t));
            && w'.shop.db == w.shop.db && w'.inserted == w.inserted
            && w'.jobs == w.jobs[t := w'.jobs[t]]
            && JobOk(w'.shop, w'.jobs[t])
  {
    var j := w.jobs[t];
    if j.pc.Checking? && j.d.subscription != "" {
      assert IsLegacy(LegacyKey(j.d.subscription, j.d.period));
    }
    OnlyGrantsTouchCredits(plans, w.shop, j.d, j.pc);
    hide Step, LegacyKey, PlanKey, Gate, IsLegacy;
  }

  lemma WorkKeepsInv(plans: Catalogue, w: World, before: map<string, L.Entry>, t: nat)
    requires Inv(w, before) && before.Keys <= w.shop.db.ledger.Keys && t in w.jobs
    ensures var w' := Next(plans, w, Work(t)); Inv(w', before) && before.Keys <= w'.shop.db.ledger.Keys
  {
    var w' := Next(plans, w, Work(t));
    var j := w.jobs[t];
    hide Step, KeyOf, GrantParamsOf, LogOk, GrantEffect, Resolved, IsLegacy;
    if j.pc.Granting? {
      GrantStatement(plans, w, t);
      GrantKeepsLog(w, before, j, w');
      GrantKey(w.shop, j);
    } else {
      OtherStatement(plans, w, t);
    }
    forall u | u in w'.jobs && u != t
      ensures JobOk(w'.shop, w'.jobs[u])
    {
      JobsStayOk(w.shop, w'.shop, w.jobs[u]);
    }
  }

  lemma ElsewhereKeepsInv(plans: Catalogue, w: World, before: map<string, L.Entry>, db: L.Db)
    requires Inv(w, before) && before.Keys <= w.shop.db.ledger.Keys && Possible(w, Elsewhere(db))
    ensures var w' := Next(plans, w, Elsewhere(db)); Inv(w', before) && before.Keys <= w'.shop.db.ledger.Keys
  {
    hide PlanKey, JobOk;
    LegacyIsPeriodKey();
    forall u | u in w.jobs
      ensures JobOk(w.shop.(db := db), w.jobs[u])
    {
      JobsStayOk(w.shop, w.shop.(db := db), w.jobs[u]);
    }
  }

  lemma LegacyIsPeriodKey()
    ensures forall k :: IsLegacy(k) ==> IsPeriodKey(k)
  {
  }

  lemma MoveKeepsInv(plans: Catalogue, w: World, before: map<string, L.Entry>, m: Move)
    requires Inv(w, before) && before.Keys <= w.shop.db.ledger.Keys && Possible(w, m)
    ensures var w' := Next(plans, w, m); Inv(w', before) && before.Keys <= w'.shop.db.ledger.Keys
  {
    hide Step, KeyOf;
    match m
    case Work(t) => WorkKeepsInv(plans, w, before, t);
    case Elsewhere(db) => ElsewhereKeepsInv(plans, w, before, db);
    case _ =>
  }

  lemma {:induction false} RunKeepsInv(plans: Catalogue, w: World, before: map<string, L.Entry>, moves: seq<Move>)
    requires Inv(w, before) && before.Keys <= w.shop.db.ledger.Keys && Run(plans, w, moves)
    ensures Inv(Final(plans, w, moves), before)
    decreases |moves|
  {
    hide Inv, Next;
    if moves != [] {
      MoveKeepsInv(plans, w, before, moves[0]);
      RunKeepsInv(plans, Next(plans, w, moves[0]), before, moves[1..]);
    }
  }

  /** However deliveries are duplicated, reordered, interleaved, broken off and repeated: no
      subscription, plan and month is granted twice; each granted one has its own ledger row with
      the granted amount, where there was none before; and when a delivery that passed the gate
      completes, its subscription, plan and month is granted, now or already before the run. */
  lemma GrantedOncePerPeriod(plans: Catalogue, w: World, moves: seq<Move>)
    requires w.jobs == map[] && w.inserted == [] && NoLegacyRows(w.shop) && Run(plans, w, moves)
    ensures var w' := Final(plans, w, moves);
            && (forall i, j :: 0 <= i < j < |w'.inserted| && w'.inserted[i].subscription != "" ==>
                  !SameTriple(w'.inserted[i], w'.inserted[j]))
            && (forall i :: 0 <= i < |w'.inserted| && w'.inserted[i].subscription != "" ==>
                  var k := KeyOf(w'.inserted[i]);
                  && k !in w.shop.db.ledger
                  && k in w'.shop.db.ledger
                  && w'.shop.db.ledger[k] == L.Entry(w'.inserted[i].org, L.Grant, w'.inserted[i].credits))
            && (forall t :: t in w'.jobs && w'.jobs[t].gated && w'.jobs[t].pc.Finished? && w'.jobs[t].d.subscription != "" ==>
                  || KeyOf(w'.jobs[t].d) in w.shop.db.ledger
                  || exists i :: 0 <= i < |w'.inserted| && SameTriple(w'.inserted[i], w'.jobs[t].d))
  {
    var before := w.shop.db.ledger;
    RunKeepsInv(plans, w, before, moves);
    var w' := Final(plans, w, moves);
    hide Final, Run;
    forall t | t in w'.jobs && w'.jobs[t].gated && w'.jobs[t].pc.Finished? && w'.jobs[t].d.subscription != ""
               && KeyOf(w'.jobs[t].d) !in before
      ensures exists i :: 0 <= i < |w'.inserted| && SameTriple(w'.inserted[i], w'.jobs[t].d)
    {
      InsertedForKey(w', before, w'.jobs[t]);
    }
  }

  lemma InsertedForKey(w: World, before: map<string, L.Entry>, j: Job)
    requires LogOk(w, before) && JobOk(w.shop, j) && HasGranted(j) && j.d.subscription != ""
    requires KeyOf(j.d) !in before
    ensures exists i :: 0 <= i < |w.inserted| && SameTriple(w.inserted[i], j.d)
  {
    var k := KeyOf(j.d);
    var i :| 0 <= i < |w.inserted| && w.inserted[i].subscription != "" && k == KeyOf(w.inserted[i]);
    var d := w.inserted[i];
    PlanKeyInjective(d.subscription, d.plan, d.period, j.d.subscription, j.d.plan, j.d.period);
  }

  /* ----- Plans only rise ----- */

  lemma StatementNeverLowersPlan(plans: Catalogue, s: Shop, d: Delivery, pc: Pc, org: string)
    ensures Rank(plans, Get(s.planOf, org)) <= Rank(plans, Get(Step(plans, s, d, pc).0.planOf, org))
  {
    hide L.GrantTx, DecisionOf, Gate, Priors, Leftovers, LegacyKey, GrantParamsOf;
  }

  /** Over every run, no organization's plan ever falls in rank. */
  lemma {:induction false} PlansNeverFall(plans: Catalogue, w: World, moves: seq<Move>, org: string)
    requires Run(plans, w, moves)
    ensures Rank(plans, Get(w.shop.planOf, org)) <= Rank(plans, Get(Final(plans, w, moves).shop.planOf, org))
    decreases |moves|
  {
    hide Step, Rank;
    if moves != [] {
      if moves[0].Work? {
        var j := w.jobs[moves[0].job];
        StatementNeverLowersPlan(plans, w.shop, j.d, j.pc, org);
      }
      PlansNeverFall(plans, Next(plans, w, moves[0]), moves[1..], org);
    }
  }
}
