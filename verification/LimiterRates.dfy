/** What the limiter grants in the configuration's own numbers: requests per minute, burst and calls at a
    time, with times in nanoseconds. */
module LimiterRates {
  import opened Wrappers
  import opened Limiter
  import opened LimiterTraces

  /** The configured window of a bucket. */
  function Configured(limits: Limits, m: Meter): Window {
    match m
    case OrgMeter(_) => limits.organization
    case UserMeter(_, _) => limits.playground
  }

  lemma GainPerMinute(rpm: int, nanos: int)
    ensures Gain(RateOf(rpm), nanos) * 60_000_000_000.0 == (if rpm < 1 then 1 else rpm) as real * nanos as real
  {
    var x, m := nanos as real, AtLeastOne(rpm) as real;
    assert Gain(RateOf(rpm), nanos) == x / 1_000_000_000.0 * (m / 60.0);
    Scaled(x, m);
  }

  lemma Scaled(x: real, m: real)
    ensures x / 1_000_000_000.0 * (m / 60.0) * 60_000_000_000.0 == m * x
  {
    var a, b := x / 1_000_000_000.0, m / 60.0;
    assert a * 1_000_000_000.0 == x && b * 60.0 == m;
    assert a * b * 60_000_000_000.0 == (b * 60.0) * (a * 1_000_000_000.0);
  }

  lemma WindowIs(limits: Limits, m: Meter)
    ensures var w := Configured(limits, m);
            && RateIn(limits, m) == RateOf(w.rpm) && WindowOf(limits, m) == w
            && BurstIn(limits, m) == (if w.burst < 1 then 1 else w.burst) as real
  {
  }

  /** In every interval of every trace, each organization and each playground user is admitted at most
      the burst, and the requests per minute for the minutes that the interval lasts. */
  lemma AdmissionsPerMinute(limits: Limits, s: Store, events: seq<Event>, now: int, m: Meter, from_: int, to: int)
    requires StoreOk(limits, s, now) && Ordered(events, now) && from_ <= to
    ensures var w := Configured(limits, m);
            var admitted := AdmittedIn(events, Verdicts(limits, s, events, now), m, from_, to);
            60_000_000_000 * (admitted - (if w.burst < 1 then 1 else w.burst)) <= (if w.rpm < 1 then 1 else w.rpm) * (to - from_)
  {
    AdmissionsAreBounded(limits, s, events, now, m, from_, to);
    hide *;
    var w := Configured(limits, m);
    var n := AdmittedIn(events, Verdicts(limits, s, events, now), m, from_, to);
    WindowIs(limits, m);
    GainBounds(n, if w.burst < 1 then 1 else w.burst, w.rpm, to - from_);
  }

  lemma GainBounds(n: int, burst: int, rpm: int, nanos: int)
    requires n as real <= burst as real + Gain(RateOf(rpm), nanos)
    ensures 60_000_000_000 * (n - burst) <= (if rpm < 1 then 1 else rpm) * nanos
  {
    GainPerMinute(rpm, nanos);
    hide *;
    Bounded(n, burst, if rpm < 1 then 1 else rpm, nanos, Gain(RateOf(rpm), nanos));
  }

  lemma Bounded(n: int, burst: int, rpm: int, nanos: int, gain: real)
    requires n as real <= burst as real + gain && gain * 60_000_000_000.0 == rpm as real * nanos as real
    ensures 60_000_000_000 * (n - burst) <= rpm * nanos
  {
    assert rpm as real * nanos as real == (rpm * nanos) as real;
    assert (60_000_000_000 * (n - burst)) as real == 60_000_000_000.0 * (n - burst) as real;
  }

  lemma LevelLater(limits: Limits, s: Store, m: Meter, now: int, later: int)
    requires StoreOk(limits, s, now) && now <= later
    ensures Level(limits, s, m, later) == Min(BurstIn(limits, m), Level(limits, s, m, now) + Gain(RateIn(limits, m), later - now))
  {
    var w := WindowOf(limits, m);
    var b := BucketIn(limits, OrgAt(limits, s, m.org, now), m, now);
    LevelIsOk(limits, s, m, now);
    SameMeterLater(limits, s, m, now, later);
    RefillTwice(b, w.rpm, w.burst, now, later);
    RefillOk(b, w.rpm, w.burst, now, now);
    RefillOk(Refill(b, now), w.rpm, w.burst, now, later);
    hide StoreOk, OrgAt, BucketIn, Gain, RateOf, Refill, OrgOk, Min, AtLeastOne;
  }

  /** A bucket that is left alone fills up by its requests per minute, up to its burst; nothing else
      changes it. */
  lemma LevelRises(limits: Limits, s: Store, m: Meter, now: int, later: int)
    requires StoreOk(limits, s, now) && now <= later
    ensures var w := Configured(limits, m);
            var burst := (if w.burst < 1 then 1 else w.burst) as real;
            var full := Level(limits, s, m, now) + (if w.rpm < 1 then 1 else w.rpm) as real * (later - now) as real / 60_000_000_000.0;
            Level(limits, s, m, later) == if full <= burst then full else burst
  {
    LevelLater(limits, s, m, now, later);
    var w := Configured(limits, m);
    MinIs(BurstIn(limits, m), Level(limits, s, m, now) + Gain(RateIn(limits, m), later - now));
    hide *;
    WindowIs(limits, m);
    GainPerMinute(w.rpm, later - now);
    Quotient(Gain(RateOf(w.rpm), later - now), (if w.rpm < 1 then 1 else w.rpm) as real * (later - now) as real);
  }

  lemma MinIs(a: real, b: real)
    ensures Min(a, b) == if b <= a then b else a
  {
  }

  lemma Quotient(gain: real, product: real)
    requires gain * 60_000_000_000.0 == product
    ensures gain == product / 60_000_000_000.0
  {
  }

  /** So whatever happened before: once the time for one request has passed untouched, there is a
      token again. */
  lemma TokenReturns(limits: Limits, s: Store, m: Meter, now: int, later: int)
    requires StoreOk(limits, s, now) && now <= later
    requires var w := Configured(limits, m); (later - now) * (if w.rpm < 1 then 1 else w.rpm) >= 60_000_000_000
    ensures Level(limits, s, m, later) >= 1.0
  {
    hide *;
    LevelRises(limits, s, m, now, later);
    LevelNotNegative(limits, s, m, now);
    var w := Configured(limits, m);
    HasToken(Level(limits, s, m, now), if w.burst < 1 then 1 else w.burst, if w.rpm < 1 then 1 else w.rpm, later - now,
             Level(limits, s, m, later));
  }

  lemma LevelNotNegative(limits: Limits, s: Store, m: Meter, now: int)
    requires StoreOk(limits, s, now)
    ensures Level(limits, s, m, now) >= 0.0
  {
    LevelIsOk(limits, s, m, now);
  }

  lemma HasToken(before: real, burst: int, rpm: int, nanos: int, after: real)
    requires before >= 0.0 && burst >= 1 && nanos * rpm >= 60_000_000_000
    requires var full := before + rpm as real * nanos as real / 60_000_000_000.0;
             after == if full <= burst as real then full else burst as real
    ensures after >= 1.0
  {
    assert rpm as real * nanos as real == (nanos * rpm) as real;
  }

  /** An organization, or a user, that was never seen has its whole burst. */
  lemma StrangersAreFull(limits: Limits, s: Store, m: Meter, now: int)
    requires m.org !in s.orgs || (m.UserMeter? && m.user !in s.orgs[m.org].playground)
    ensures var w := Configured(limits, m); Level(limits, s, m, now) == (if w.burst < 1 then 1 else w.burst) as real
  {
    hide RateOf;
  }

  /* ----- Every answer ----- */

  /** The time until a bucket of that level has a token, cut to whole nanoseconds, but a second at
      least. */
  predicate IsPause(retry: int, level: real, w: Window) {
    var rpm := (if w.rpm < 1 then 1 else w.rpm) as real;
    && retry >= 1_000_000_000
    && 60_000_000_000.0 * (1.0 - level) < rpm * (retry + 1) as real
    && (retry > 1_000_000_000 ==> rpm * retry as real <= 60_000_000_000.0 * (1.0 - level))
  }

  lemma PauseIs(b: Bucket, rpm: int, burst: int, now: int)
    requires BucketOk(b, rpm, burst, now) && b.tokens < 1.0
    ensures b.rate > 0.0 && IsPause(if Wait(b) < 1_000_000_000 then 1_000_000_000 else Wait(b), b.tokens, Window(rpm, burst))
  {
    var m := AtLeastOne(rpm) as real;
    var wait := (1.0 - b.tokens) / b.rate;
    assert b.rate * 60.0 == m;
    assert wait * b.rate == 1.0 - b.tokens && wait >= 0.0;
    assert Wait(b) == (wait * 1_000_000_000.0).Floor;
    WaitScales(wait, b.rate, m, 1.0 - b.tokens);
    hide Wait, BucketOk;
    PauseOf(wait * 1_000_000_000.0, m, Wait(b), 1.0 - b.tokens);
  }

  lemma WaitScales(wait: real, rate: real, m: real, missing: real)
    requires rate * 60.0 == m && wait * rate == missing
    ensures wait * 1_000_000_000.0 * m == 60_000_000_000.0 * missing
  {
    assert wait * 1_000_000_000.0 * (rate * 60.0) == wait * rate * 60_000_000_000.0;
  }

  lemma PauseOf(x: real, m: real, n: int, missing: real)
    requires m > 0.0 && n == x.Floor && x * m == 60_000_000_000.0 * missing
    ensures 60_000_000_000.0 * missing < m * (n + 1) as real && m * n as real <= 60_000_000_000.0 * missing
    ensures n < 1_000_000_000 ==> 60_000_000_000.0 * missing < m * 1_000_000_001.0
  {
    Longer(m, n as real, x);
    Shorter(m, x, (n + 1) as real);
    if n < 1_000_000_000 {
      Longer(m, (n + 1) as real, 1_000_000_001.0);
    }
  }

  lemma Longer(m: real, a: real, b: real)
    requires m > 0.0 && a <= b
    ensures m * a <= m * b
  {
  }

  lemma Shorter(m: real, a: real, b: real)
    requires m > 0.0 && a < b
    ensures m * a < m * b
  {
  }

  /** Every answer, told from the levels and the counter before the call: a call on the playground needs
      a token of its user's bucket, every call one of its organization's and room for one more at a
      time. The refusal names the first that is missing, its limit, the time until it is worth trying
      again and when that is; the admission takes the tokens and a numbered place. */
  lemma AnsweredExactly(limits: Limits, s: Store, c: Call)
    requires StoreOk(limits, s, c.now) && OrgOk(limits, OrgAt(limits, s, c.org, c.now), c.now) && c.org != ""
    ensures var v := Allow(limits, s, c).1;
            var user, org := Level(limits, s, UserMeter(c.org, c.user), c.now), Level(limits, s, OrgMeter(c.org), c.now);
            var calls := if c.org in s.orgs then s.orgs[c.org].inflight else 0;
            if c.playground && c.user != "" && user < 1.0 then
              && v.Rejected? && v.scope == Playground && v.limit == limits.playground.rpm && v.remaining == 0
              && IsPause(v.retryAfter, user, limits.playground) && v.reset == c.now + v.retryAfter
            else if org < 1.0 then
              && v.Rejected? && v.scope == Organization && v.limit == limits.organization.rpm && v.remaining == 0
              && IsPause(v.retryAfter, org, limits.organization) && v.reset == c.now + v.retryAfter
            else if calls >= (if limits.concurrent < 1 then 1 else limits.concurrent) then
              v == Rejected(Concurrency, limits.organization.rpm, org.Floor, 1_000_000_000, c.now + 1_000_000_000)
            else
              v == Admitted(|s.slips|, limits.organization.rpm, org.Floor - 1, c.now + 60_000_000_000)
  {
    var o := OrgAt(limits, s, c.org, c.now);
    RefillNow(limits, o.rpm, limits.organization, c.now);
    RefillOk(o.rpm, limits.organization.rpm, limits.organization.burst, c.now, c.now);
    UserInSeen(limits, o, c);
    var pg, org := Refill(PlaygroundAt(limits, o, c.user, c.now), c.now), Refill(o.rpm, c.now);
    PlaygroundLater(limits, o, c.user, c.now, c.now);
    RefillOk(PlaygroundAt(limits, o, c.user, c.now), limits.playground.rpm, limits.playground.burst, c.now, c.now);
    if pg.tokens < 1.0 {
      PauseIs(pg, limits.playground.rpm, limits.playground.burst, c.now);
    }
    if org.tokens < 1.0 {
      PauseIs(org, limits.organization.rpm, limits.organization.burst, c.now);
    } else {
      OneLess(org.tokens);
    }
    hide Refill, PlaygroundAt, BucketOk, Wait, SeenPlayground, IsPause, NewBucket;
  }

  lemma OneLess(x: real)
    ensures (x - 1.0).Floor == x.Floor - 1
  {
  }

  /** A call without an organization is not limited and leaves nothing behind. */
  lemma NobodyIsUnlimited(limits: Limits, s: Store, c: Call)
    requires c.org == ""
    ensures Allow(limits, s, c) == (s, Unlimited)
  {
  }

  /** An admission adds a place that counts until it is released; other organizations are untouched. */
  lemma AdmissionTakesPlace(limits: Limits, s: Store, c: Call)
    requires StoreOk(limits, s, c.now) && OrgOk(limits, OrgAt(limits, s, c.org, c.now), c.now) && c.org != ""
    ensures var (s', v) := Allow(limits, s, c);
            && c.org in s'.orgs
            && s'.orgs[c.org].inflight == (if c.org in s.orgs then s.orgs[c.org].inflight else 0) + (if v.Admitted? then 1 else 0)
            && s'.slips == (if v.Admitted? then s.slips + [Slip(c.org, false)] else s.slips)
            && (forall org :: org in s.orgs && org != c.org ==> org in s'.orgs && s'.orgs[org] == s.orgs[org])
  {
    CallCounts(limits, OrgAt(limits, s, c.org, c.now), c, |s.slips|);
    hide AllowIn, OrgOk, NewBucket;
  }

  /** The first release of a place marks it and lets one more call in; any other release changes
      nothing. */
  lemma ReleaseExactly(limits: Limits, s: Store, id: nat)
    requires Counted(limits, s)
    ensures Release(s, id)
            == if id < |s.slips| && !s.slips[id].released then
                 var org := s.slips[id].org;
                 if org in s.orgs then
                   Store(s.orgs[org := s.orgs[org].(inflight := s.orgs[org].inflight - 1)], s.slips[id := Slip(org, true)])
                 else s
               else s
    ensures id < |s.slips| && !s.slips[id].released ==> s.slips[id].org in s.orgs
  {
    if id < |s.slips| && !s.slips[id].released {
      GuardNeverFails(limits, s, id);
    }
    hide Counted;
  }
}
