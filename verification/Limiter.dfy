/** The in-memory rate limiter: two token buckets and a count of calls in flight per organization.
    Times are in nanoseconds, one clock reading per call; tokens are real numbers. */
module Limiter {
  /* ----- One bucket ----- */

  datatype Bucket = Bucket(rate: real, burst: real, tokens: real, last: int)

  const NANOS_PER_SECOND := 1_000_000_000

  /** The tokens that a number of nanoseconds brings. */
  function Gain(rate: real, nanos: int): real {
    nanos as real / 1_000_000_000.0 * rate
  }

  function AtLeastOne(x: int): int {
    if x < 1 then 1 else x
  }

  function RateOf(rpm: int): real {
    AtLeastOne(rpm) as real / 60.0
  }

  function NewBucket(rpm: int, burst: int, now: int): Bucket {
    Bucket(RateOf(rpm), AtLeastOne(burst) as real, AtLeastOne(burst) as real, now)
  }

  function Min(a: real, b: real): real {
    if a <= b then a else b
  }

  function Refill(b: Bucket, now: int): Bucket {
    if now > b.last then b.(tokens := Min(b.burst, b.tokens + Gain(b.rate, now - b.last)), last := now) else b
  }

  function Taken(b: Bucket): Bucket {
    if b.tokens >= 1.0 then b.(tokens := b.tokens - 1.0) else b
  }

  /** How long an empty bucket asks its caller to wait, cut to whole nanoseconds. */
  function Wait(b: Bucket): int
    requires b.rate > 0.0
  {
    var wait := (1.0 - b.tokens) / b.rate;
    ((if wait < 0.0 then 0.0 else wait) * 1_000_000_000.0).Floor
  }

  predicate BucketOk(b: Bucket, rpm: int, burst: int, now: int) {
    && b.rate == RateOf(rpm)
    && b.burst == AtLeastOne(burst) as real
    && 0.0 <= b.tokens <= b.burst
    && b.last <= now
  }

  lemma GainAdds(rate: real, a: int, b: int)
    ensures Gain(rate, a + b) == Gain(rate, a) + Gain(rate, b)
  {
    var x, y := a as real / 1_000_000_000.0, b as real / 1_000_000_000.0;
    assert (a + b) as real / 1_000_000_000.0 == x + y;
    assert (x + y) * rate == x * rate + y * rate;
  }

  lemma GainPositive(rate: real, nanos: int)
    requires rate >= 0.0 && nanos >= 0
    ensures Gain(rate, nanos) >= 0.0
  {
    assert nanos as real / 1_000_000_000.0 >= 0.0;
  }

  lemma GainNothing(rate: real)
    ensures Gain(rate, 0) == 0.0
  {
  }

  lemma RefillOk(b: Bucket, rpm: int, burst: int, then_: int, now: int)
    requires BucketOk(b, rpm, burst, then_) && then_ <= now
    ensures BucketOk(Refill(b, now), rpm, burst, now)
    ensures Refill(b, now).last == now
    ensures Refill(b, now).tokens == Min(b.burst, b.tokens + Gain(b.rate, now - b.last))
  {
    GainPositive(b.rate, now - b.last);
    GainNothing(b.rate);
    hide Gain, RateOf;
  }

  /** Refilling on the way makes no difference. */
  lemma RefillTwice(b: Bucket, rpm: int, burst: int, mid: int, now: int)
    requires BucketOk(b, rpm, burst, mid) && mid <= now
    ensures Refill(Refill(b, mid), now).tokens == Refill(b, now).tokens
  {
    RefillOk(b, rpm, burst, mid, mid);
    RefillOk(b, rpm, burst, mid, now);
    RefillOk(Refill(b, mid), rpm, burst, mid, now);
    GainAdds(b.rate, mid - b.last, now - mid);
    GainPositive(b.rate, now - mid);
    MinTwice(b.burst, b.tokens, Gain(b.rate, mid - b.last), Gain(b.rate, now - mid));
    assert mid - b.last + (now - mid) == now - b.last;
    hide Gain, Min, RateOf, AtLeastOne, Refill;
  }

  lemma MinTwice(burst: real, x: real, g: real, h: real)
    requires h >= 0.0
    ensures Min(burst, Min(burst, x + g) + h) == Min(burst, x + (g + h))
  {
  }

  /** After the wait that a rejecting bucket asks for, and one nanosecond more, it has a token. */
  lemma WaitSuffices(b: Bucket, rpm: int, burst: int, now: int, later: int)
    requires BucketOk(b, rpm, burst, now) && b.last == now && b.tokens < 1.0
    requires later >= now + Wait(b) + 1
    ensures Refill(b, later).tokens >= 1.0
  {
    RefillOk(b, rpm, burst, now, later);
    WaitGains(b, later - now);
    hide Gain, Refill, Wait;
  }

  lemma WaitGains(b: Bucket, nanos: int)
    requires b.rate > 0.0 && b.tokens < 1.0 && nanos >= Wait(b) + 1
    ensures Gain(b.rate, nanos) >= 1.0 - b.tokens
  {
    var wait := (1.0 - b.tokens) / b.rate;
    assert wait >= 0.0;
    assert nanos as real >= wait * 1_000_000_000.0;
    assert nanos as real / 1_000_000_000.0 >= wait;
    GainCovers(nanos as real / 1_000_000_000.0, wait, b.rate);
    assert wait * b.rate == 1.0 - b.tokens;
  }

  lemma GainCovers(elapsed: real, wait: real, rate: real)
    requires elapsed >= wait && rate > 0.0
    ensures elapsed * rate >= wait * rate
  {
  }

  /* ----- The limiter's state and one call ----- */

  datatype Window = Window(rpm: int, burst: int)

  datatype Limits = Limits(organization: Window, concurrent: int, playground: Window)

  datatype OrgState = OrgState(rpm: Bucket, inflight: int, max: int, playground: map<string, Bucket>)

  /** A reservation that was handed out, and whether its release was called. */
  datatype Slip = Slip(org: string, released: bool)

  datatype Store = Store(orgs: map<string, OrgState>, slips: seq<Slip>)

  const EMPTY := Store(map[], [])

  datatype Call = Call(org: string, user: string, playground: bool, now: int)

  datatype Scope = Playground | Organization | Concurrency

  datatype Verdict =
    | Unlimited
    | Admitted(id: nat, limit: int, remaining: int, reset: int)
    | Rejected(scope: Scope, limit: int, remaining: int, retryAfter: int, reset: int)

  function RateError(scope: Scope, limit: int, remaining: int, retry: int, now: int): Verdict {
    var r := if retry < NANOS_PER_SECOND then NANOS_PER_SECOND else retry;
    Rejected(scope, limit, remaining, r, now + r)
  }

  function NewOrg(limits: Limits, now: int): OrgState {
    OrgState(NewBucket(limits.organization.rpm, limits.organization.burst, now), 0, AtLeastOne(limits.concurrent), map[])
  }

  /** Organizations and their playground users get full buckets when they are first seen. */
  function OrgAt(limits: Limits, s: Store, org: string, now: int): OrgState {
    if org in s.orgs then s.orgs[org] else NewOrg(limits, now)
  }

  function PlaygroundAt(limits: Limits, o: OrgState, user: string, now: int): Bucket {
    if user in o.playground then o.playground[user] else NewBucket(limits.playground.rpm, limits.playground.burst, now)
  }

  predicate OnPlayground(c: Call) {
    c.playground && c.user != ""
  }

  /** The organization's state after looking at the buckets, before anything is taken. */
  function SeenPlayground(limits: Limits, o: OrgState, c: Call): OrgState {
    if OnPlayground(c) then
      o.(playground := o.playground[c.user := Refill(PlaygroundAt(limits, o, c.user, c.now), c.now)])
    else o
  }

  function Admit(o: OrgState, c: Call): OrgState {
    o.(playground := if OnPlayground(c) && c.user in o.playground then o.playground[c.user := Taken(o.playground[c.user])] else o.playground,
       rpm := Taken(o.rpm),
       inflight := o.inflight + 1)
  }

  function AllowIn(limits: Limits, o: OrgState, c: Call, id: nat): (OrgState, Verdict)
    requires OrgOk(limits, o, c.now)
  {
    var o1 := SeenPlayground(limits, o, c);
    if OnPlayground(c) && o1.playground[c.user].tokens < 1.0 then
      (o1, RateError(Playground, limits.playground.rpm, 0, Wait(o1.playground[c.user]), c.now))
    else
      var o2 := o1.(rpm := Refill(o1.rpm, c.now));
      if o2.rpm.tokens < 1.0 then (o2, RateError(Organization, limits.organization.rpm, 0, Wait(o2.rpm), c.now))
      else if o2.inflight >= o2.max then
        (o2, RateError(Concurrency, limits.organization.rpm, o2.rpm.tokens.Floor, NANOS_PER_SECOND, c.now))
      else
        var o3 := Admit(o2, c);
        (o3, Admitted(id, limits.organization.rpm, o3.rpm.tokens.Floor, c.now + 60 * NANOS_PER_SECOND))
  }

  function Allow(limits: Limits, s: Store, c: Call): (Store, Verdict)
    requires c.org != "" ==> OrgOk(limits, OrgAt(limits, s, c.org, c.now), c.now)
  {
    if c.org == "" then (s, Unlimited)
    else
      var (o, v) := AllowIn(limits, OrgAt(limits, s, c.org, c.now), c, |s.slips|);
      (Store(s.orgs[c.org := o], if v.Admitted? then s.slips + [Slip(c.org, false)] else s.slips), v)
  }

  /** Only the first release of a reservation counts. */
  function Release(s: Store, id: nat): Store {
    if id >= |s.slips| || s.slips[id].released then s
    else
      var org := s.slips[id].org;
      var slips := s.slips[id := Slip(org, true)];
      if org in s.orgs && s.orgs[org].inflight > 0 then
        Store(s.orgs[org := s.orgs[org].(inflight := s.orgs[org].inflight - 1)], slips)
      else Store(s.orgs, slips)
  }

  /* ----- Well-formed states ----- */

  predicate OrgOk(limits: Limits, o: OrgState, now: int) {
    && BucketOk(o.rpm, limits.organization.rpm, limits.organization.burst, now)
    && o.max == AtLeastOne(limits.concurrent)
    && (forall user :: user in o.playground ==>
          BucketOk(o.playground[user], limits.playground.rpm, limits.playground.burst, now))
  }

  predicate StoreOk(limits: Limits, s: Store, now: int) {
    forall org :: org in s.orgs ==> OrgOk(limits, s.orgs[org], now)
  }

  lemma OrgAtOk(limits: Limits, s: Store, org: string, u: int, now: int)
    requires StoreOk(limits, s, u) && u <= now
    ensures OrgOk(limits, OrgAt(limits, s, org, now), now)
  {
  }

  lemma AllowInOk(limits: Limits, o: OrgState, c: Call, id: nat)
    requires OrgOk(limits, o, c.now)
    ensures OrgOk(limits, AllowIn(limits, o, c, id).0, c.now)
  {
    RefillOk(o.rpm, limits.organization.rpm, limits.organization.burst, c.now, c.now);
    if OnPlayground(c) {
      RefillOk(PlaygroundAt(limits, o, c.user, c.now), limits.playground.rpm, limits.playground.burst, c.now, c.now);
    }
    hide Refill, RateOf, AtLeastOne, Wait;
  }

  lemma AllowOk(limits: Limits, s: Store, c: Call, u: int)
    requires StoreOk(limits, s, u) && u <= c.now
    ensures OrgOk(limits, OrgAt(limits, s, c.org, c.now), c.now)
    ensures StoreOk(limits, Allow(limits, s, c).0, c.now)
  {
    OrgAtOk(limits, s, c.org, u, c.now);
    AllowInOk(limits, OrgAt(limits, s, c.org, c.now), c, |s.slips|);
    hide AllowIn, RateOf, AtLeastOne;
  }
}
