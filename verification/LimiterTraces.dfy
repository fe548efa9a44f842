/** Whole traces of the rate limiter: what it admits in any interval, what rejected calls leave
    behind (nothing), and how many calls are in flight. */
module LimiterTraces {
  import opened Wrappers
  import opened Limiter

  datatype Event = Ask(call: Call) | Free(id: nat)

  /** Clock readings do not go back from one call to the next. */
  predicate Ordered(events: seq<Event>, now: int)
    decreases |events|
  {
    events == [] ||
    match events[0]
    case Ask(c) => now <= c.now && Ordered(events[1..], c.now)
    case Free(_) => Ordered(events[1..], now)
  }

  function After(e: Event, now: int): int {
    if e.Ask? then e.call.now else now
  }

  function Step(limits: Limits, s: Store, e: Event): (Store, Option<Verdict>)
    requires e.Ask? && e.call.org != "" ==> OrgOk(limits, OrgAt(limits, s, e.call.org, e.call.now), e.call.now)
  {
    match e
    case Ask(c) => var (s', v) := Allow(limits, s, c); (s', Some(v))
    case Free(id) => (Release(s, id), None)
  }

  lemma StepOk(limits: Limits, s: Store, e: Event, now: int)
    requires StoreOk(limits, s, now) && Ordered([e], now)
    ensures e.Ask? ==> OrgOk(limits, OrgAt(limits, s, e.call.org, e.call.now), e.call.now)
    ensures StoreOk(limits, Step(limits, s, e).0, After(e, now))
  {
    if e.Ask? {
      AllowOk(limits, s, e.call, now);
    }
    hide Allow, BucketOk;
  }

  /** What every event of a trace is answered, in order. */
  function Verdicts(limits: Limits, s: Store, events: seq<Event>, now: int): (vs: seq<Option<Verdict>>)
    requires StoreOk(limits, s, now) && Ordered(events, now)
    ensures |vs| == |events|
    decreases |events|
  {
    if events == [] then []
    else
      StepOk(limits, s, events[0], now);
      var (s', v) := Step(limits, s, events[0]);
      [v] + Verdicts(limits, s', events[1..], After(events[0], now))
  }

  function Final(limits: Limits, s: Store, events: seq<Event>, now: int): (s': Store)
    requires StoreOk(limits, s, now) && Ordered(events, now)
    decreases |events|
  {
    if events == [] then s
    else
      StepOk(limits, s, events[0], now);
      Final(limits, Step(limits, s, events[0]).0, events[1..], After(events[0], now))
  }

  /* ----- Two states that nobody can tell apart ----- */

  predicate SameBucket(a: Bucket, b: Bucket, now: int) {
    a.rate == b.rate && a.burst == b.burst && Refill(a, now).tokens == Refill(b, now).tokens
  }

  ghost predicate SameOrg(limits: Limits, a: OrgState, b: OrgState, now: int) {
    && SameBucket(a.rpm, b.rpm, now)
    && a.inflight == b.inflight
    && forall user :: SameBucket(PlaygroundAt(limits, a, user, now), PlaygroundAt(limits, b, user, now), now)
  }

  ghost predicate Same(limits: Limits, a: Store, b: Store, now: int) {
    && a.slips == b.slips
    && forall org :: SameOrg(limits, OrgAt(limits, a, org, now), OrgAt(limits, b, org, now), now)
  }

  lemma SameBucketLater(a: Bucket, b: Bucket, w: Window, now: int, later: int)
    requires BucketOk(a, w.rpm, w.burst, now) && BucketOk(b, w.rpm, w.burst, now)
    requires SameBucket(a, b, now) && now <= later
    ensures SameBucket(a, b, later)
  {
    RefillTwice(a, w.rpm, w.burst, now, later);
    RefillTwice(b, w.rpm, w.burst, now, later);
    RefillOk(a, w.rpm, w.burst, now, now);
    RefillOk(b, w.rpm, w.burst, now, now);
    assert Refill(a, now) == Refill(b, now);
    hide Refill;
  }

  /** A bucket created later is as full as one created earlier and left alone. */
  lemma NewBucketLater(w: Window, now: int, later: int)
    requires now <= later
    ensures Refill(NewBucket(w.rpm, w.burst, now), later) == Refill(NewBucket(w.rpm, w.burst, later), later)
    ensures BucketOk(NewBucket(w.rpm, w.burst, now), w.rpm, w.burst, now)
  {
    GainPositive(RateOf(w.rpm), later - now);
    hide Gain;
  }

  lemma PlaygroundLater(limits: Limits, o: OrgState, user: string, now: int, later: int)
    requires OrgOk(limits, o, now) && now <= later
    ensures BucketOk(PlaygroundAt(limits, o, user, now), limits.playground.rpm, limits.playground.burst, now)
    ensures SameBucket(PlaygroundAt(limits, o, user, now), PlaygroundAt(limits, o, user, later), later)
  {
    NewBucketLater(limits.playground, now, later);
    hide Refill, BucketOk;
  }

  lemma SameOrgLater(limits: Limits, a: OrgState, b: OrgState, now: int, later: int)
    requires OrgOk(limits, a, now) && OrgOk(limits, b, now) && SameOrg(limits, a, b, now) && now <= later
    ensures SameOrg(limits, a, b, later)
  {
    SameBucketLater(a.rpm, b.rpm, limits.organization, now, later);
    forall user
      ensures SameBucket(PlaygroundAt(limits, a, user, later), PlaygroundAt(limits, b, user, later), later)
    {
      PlaygroundLater(limits, a, user, now, later);
      PlaygroundLater(limits, b, user, now, later);
      SameBucketLater(PlaygroundAt(limits, a, user, now), PlaygroundAt(limits, b, user, now), limits.playground, now, later);
    }
  }

  lemma OrgLater(limits: Limits, s: Store, org: string, now: int, later: int)
    requires StoreOk(limits, s, now) && now <= later
    ensures OrgOk(limits, OrgAt(limits, s, org, now), now)
    ensures SameOrg(limits, OrgAt(limits, s, org, now), OrgAt(limits, s, org, later), later)
  {
    OrgAtOk(limits, s, org, now, now);
    NewBucketLater(limits.organization, now, later);
    NewBucketLater(limits.playground, now, later);
    hide Refill, BucketOk;
  }

  lemma SameLater(limits: Limits, a: Store, b: Store, now: int, later: int)
    requires StoreOk(limits, a, now) && StoreOk(limits, b, now) && Same(limits, a, b, now) && now <= later
    ensures Same(limits, a, b, later)
  {
    forall org
      ensures SameOrg(limits, OrgAt(limits, a, org, later), OrgAt(limits, b, org, later), later)
    {
      var a0, b0 := OrgAt(limits, a, org, now), OrgAt(limits, b, org, now);
      OrgLater(limits, a, org, now, later);
      OrgLater(limits, b, org, now, later);
      SameOrgLater(limits, a0, b0, now, later);
    }
  }

  /* ----- One call cannot tell them apart, and leaves them so ----- */

  lemma SeenSame(limits: Limits, a: OrgState, b: OrgState, c: Call)
    requires OrgOk(limits, a, c.now) && OrgOk(limits, b, c.now) && SameOrg(limits, a, b, c.now)
    ensures SameOrg(limits, SeenPlayground(limits, a, c), SeenPlayground(limits, b, c), c.now)
    ensures OrgOk(limits, SeenPlayground(limits, a, c), c.now)
    ensures OnPlayground(c) ==> SeenPlayground(limits, a, c).playground[c.user] == SeenPlayground(limits, b, c).playground[c.user]
  {
    if OnPlayground(c) {
      RefreshedSame(limits, a, b, c.user, c.now);
    }
    SeenUsers(limits, a, c);
    SeenUsers(limits, b, c);
    hide Refill, BucketOk, PlaygroundAt;
  }

  lemma SeenUsers(limits: Limits, o: OrgState, c: Call)
    ensures forall user :: PlaygroundAt(limits, SeenPlayground(limits, o, c), user, c.now)
              == if OnPlayground(c) && user == c.user then Refill(PlaygroundAt(limits, o, user, c.now), c.now)
                 else PlaygroundAt(limits, o, user, c.now)
  {
    hide Refill;
  }

  lemma AdmitUsers(limits: Limits, o: OrgState, c: Call)
    requires OnPlayground(c) ==> c.user in o.playground
    ensures forall user :: PlaygroundAt(limits, Admit(o, c), user, c.now)
              == if OnPlayground(c) && user == c.user then Taken(PlaygroundAt(limits, o, user, c.now))
                 else PlaygroundAt(limits, o, user, c.now)
  {
    hide Taken;
  }

  lemma RefreshedSame(limits: Limits, a: OrgState, b: OrgState, user: string, now: int)
    requires OrgOk(limits, a, now) && OrgOk(limits, b, now) && SameOrg(limits, a, b, now)
    ensures var x, y := Refill(PlaygroundAt(limits, a, user, now), now), Refill(PlaygroundAt(limits, b, user, now), now);
            x == y && Refill(x, now) == x && BucketOk(x, limits.playground.rpm, limits.playground.burst, now)
  {
    PlaygroundLater(limits, a, user, now, now);
    PlaygroundLater(limits, b, user, now, now);
    RefillOk(PlaygroundAt(limits, a, user, now), limits.playground.rpm, limits.playground.burst, now, now);
    RefillOk(PlaygroundAt(limits, b, user, now), limits.playground.rpm, limits.playground.burst, now, now);
    hide PlaygroundAt;
  }

  lemma RpmSame(limits: Limits, a: OrgState, b: OrgState, now: int)
    requires OrgOk(limits, a, now) && OrgOk(limits, b, now) && SameBucket(a.rpm, b.rpm, now)
    ensures Refill(a.rpm, now) == Refill(b.rpm, now) && Refill(Refill(a.rpm, now), now) == Refill(a.rpm, now)
  {
    RefillOk(a.rpm, limits.organization.rpm, limits.organization.burst, now, now);
    RefillOk(b.rpm, limits.organization.rpm, limits.organization.burst, now, now);
  }

  lemma AdmittedAlike(limits: Limits, a: OrgState, b: OrgState, c: Call)
    requires SameOrg(limits, a, b, c.now) && a.rpm == b.rpm
    requires OnPlayground(c) ==> c.user in a.playground && c.user in b.playground && a.playground[c.user] == b.playground[c.user]
    ensures SameOrg(limits, Admit(a, c), Admit(b, c), c.now)
  {
    AdmitUsers(limits, a, c);
    AdmitUsers(limits, b, c);
    hide Refill, Taken;
  }

  /** Whatever differs between two states that nobody can tell apart, a call is answered the same
      and leaves them so. */
  lemma AnsweredAlike(limits: Limits, a: OrgState, b: OrgState, c: Call, id: nat)
    requires OrgOk(limits, a, c.now) && OrgOk(limits, b, c.now) && SameOrg(limits, a, b, c.now)
    ensures AllowIn(limits, a, c, id).1 == AllowIn(limits, b, c, id).1
    ensures SameOrg(limits, AllowIn(limits, a, c, id).0, AllowIn(limits, b, c, id).0, c.now)
  {
    SeenSame(limits, a, b, c);
    SeenSame(limits, b, a, c);
    var a1, b1 := SeenPlayground(limits, a, c), SeenPlayground(limits, b, c);
    RpmSame(limits, a1, b1, c.now);
    var a2, b2 := a1.(rpm := Refill(a1.rpm, c.now)), b1.(rpm := Refill(b1.rpm, c.now));
    UsersOnly(limits, a1, a2, c.now);
    UsersOnly(limits, b1, b2, c.now);
    AdmittedAlike(limits, a2, b2, c);
    hide Refill, BucketOk, SeenPlayground, Wait, RateError, Admit, PlaygroundAt;
  }

  lemma UsersOnly(limits: Limits, o: OrgState, o': OrgState, now: int)
    requires o'.playground == o.playground
    ensures forall user :: PlaygroundAt(limits, o', user, now) == PlaygroundAt(limits, o, user, now)
  {
  }

  /** A rejected call leaves a state that nobody can tell from the one before. */
  lemma RejectionLeavesNoTrace(limits: Limits, o: OrgState, c: Call, id: nat)
    requires OrgOk(limits, o, c.now) && AllowIn(limits, o, c, id).1.Rejected?
    ensures SameOrg(limits, AllowIn(limits, o, c, id).0, o, c.now)
  {
    RpmSame(limits, o, o, c.now);
    if OnPlayground(c) {
      RefreshedSame(limits, o, o, c.user, c.now);
    }
    hide Refill, BucketOk, Wait, RateError;
  }

  lemma StoreLater(limits: Limits, s: Store, now: int, later: int)
    requires StoreOk(limits, s, now) && now <= later
    ensures StoreOk(limits, s, later)
  {
  }

  /** The organizations after a call: only the caller's changes. */
  lemma AllowedOrgs(limits: Limits, s: Store, c: Call)
    requires c.org != "" && OrgOk(limits, OrgAt(limits, s, c.org, c.now), c.now)
    ensures var s' := Allow(limits, s, c).0;
            forall org :: OrgAt(limits, s', org, c.now)
              == if org == c.org then AllowIn(limits, OrgAt(limits, s, c.org, c.now), c, |s.slips|).0
                 else OrgAt(limits, s, org, c.now)
  {
    hide AllowIn, OrgOk, NewOrg;
  }

  lemma AllowAlike(limits: Limits, a: Store, b: Store, c: Call)
    requires StoreOk(limits, a, c.now) && StoreOk(limits, b, c.now) && Same(limits, a, b, c.now)
    ensures OrgOk(limits, OrgAt(limits, a, c.org, c.now), c.now) && OrgOk(limits, OrgAt(limits, b, c.org, c.now), c.now)
    ensures Allow(limits, a, c).1 == Allow(limits, b, c).1
    ensures Same(limits, Allow(limits, a, c).0, Allow(limits, b, c).0, c.now)
  {
    OrgAtOk(limits, a, c.org, c.now, c.now);
    OrgAtOk(limits, b, c.org, c.now, c.now);
    if c.org != "" {
      AllowedOrgs(limits, a, c);
      AllowedOrgs(limits, b, c);
      AnsweredAlike(limits, OrgAt(limits, a, c.org, c.now), OrgAt(limits, b, c.org, c.now), c, |a.slips|);
    }
    hide AllowIn, OrgOk, OrgAt, SameOrg;
  }

  lemma RejectedAlike(limits: Limits, s: Store, c: Call)
    requires StoreOk(limits, s, c.now)
    requires OrgOk(limits, OrgAt(limits, s, c.org, c.now), c.now) && Allow(limits, s, c).1.Rejected?
    ensures Same(limits, Allow(limits, s, c).0, s, c.now)
  {
    AllowedOrgs(limits, s, c);
    RejectionLeavesNoTrace(limits, OrgAt(limits, s, c.org, c.now), c, |s.slips|);
    hide AllowIn, OrgOk, OrgAt;
  }

  lemma ReleasedOrgs(limits: Limits, s: Store, id: nat, now: int)
    ensures var s' := Release(s, id);
            forall org ::
              var o, o' := OrgAt(limits, s, org, now), OrgAt(limits, s', org, now);
              o' == o.(inflight := if id < |s.slips| && !s.slips[id].released && s.slips[id].org == org && o.inflight > 0
                                   then o.inflight - 1 else o.inflight)
  {
  }

  lemma ReleaseAlike(limits: Limits, a: Store, b: Store, id: nat, now: int)
    requires Same(limits, a, b, now)
    ensures Same(limits, Release(a, id), Release(b, id), now)
  {
    ReleasedOrgs(limits, a, id, now);
    ReleasedOrgs(limits, b, id, now);
    forall org
      ensures SameOrg(limits, OrgAt(limits, Release(a, id), org, now), OrgAt(limits, Release(b, id), org, now), now)
    {
      var o, p := OrgAt(limits, a, org, now), OrgAt(limits, b, org, now);
      assert SameOrg(limits, o, p, now);
      UsersOnly(limits, o, OrgAt(limits, Release(a, id), org, now), now);
      UsersOnly(limits, p, OrgAt(limits, Release(b, id), org, now), now);
      hide SameBucket, PlaygroundAt, OrgAt, Release;
    }
    hide SameOrg, OrgAt;
  }

  lemma OrderedEarlier(events: seq<Event>, now: int, later: int)
    requires Ordered(events, later) && now <= later
    ensures Ordered(events, now)
    decreases |events|
  {
    if events != [] && events[0].Free? {
      OrderedEarlier(events[1..], now, later);
    }
  }

  /** From two states that nobody can tell apart, every trace is answered the same. */
  lemma {:induction false} VerdictsAlike(limits: Limits, a: Store, na: int, b: Store, nb: int,
          events: seq<Event>, now: int)
    requires StoreOk(limits, a, na) && StoreOk(limits, b, nb) && na <= now && nb <= now
    requires Same(limits, a, b, now) && Ordered(events, now)
    ensures Ordered(events, na) && Ordered(events, nb)
    ensures Verdicts(limits, a, events, na) == Verdicts(limits, b, events, nb)
    decreases |events|
  {
    OrderedEarlier(events, na, now);
    OrderedEarlier(events, nb, now);
    if events != [] {
      StepOk(limits, a, events[0], na);
      StepOk(limits, b, events[0], nb);
      var a', b' := Step(limits, a, events[0]).0, Step(limits, b, events[0]).0;
      match events[0]
      case Ask(c) =>
        StoreLater(limits, a, na, c.now);
        StoreLater(limits, b, nb, c.now);
        SameStoresLater(limits, a, na, b, nb, now, c.now);
        AllowAlike(limits, a, b, c);
        VerdictsAlike(limits, a', c.now, b', c.now, events[1..], c.now);
      case Free(id) =>
        ReleaseAlike(limits, a, b, id, now);
        VerdictsAlike(limits, a', na, b', nb, events[1..], now);
    }
    hide Same, StoreOk, Allow, Release;
  }

  lemma SameStoresLater(limits: Limits, a: Store, na: int, b: Store, nb: int, now: int, later: int)
    requires StoreOk(limits, a, na) && StoreOk(limits, b, nb) && na <= now && nb <= now <= later && Same(limits, a, b, now)
    ensures Same(limits, a, b, later)
  {
    StoreLater(limits, a, na, now);
    StoreLater(limits, b, nb, now);
    SameLater(limits, a, b, now, later);
  }

  function Without<T>(s: seq<T>, k: nat): seq<T>
    requires k < |s|
  {
    s[..k] + s[k + 1..]
  }

  lemma WithoutLater<T>(x: T, s: seq<T>, k: nat)
    requires k < |s|
    ensures Without([x] + s, k + 1) == [x] + Without(s, k)
  {
  }

  lemma WithoutFirst<T>(x: T, s: seq<T>)
    ensures Without([x] + s, 0) == s
  {
  }

  lemma OneByOne(limits: Limits, s: Store, e: Event, rest: seq<Event>, now: int)
    requires StoreOk(limits, s, now) && Ordered([e], now) && Ordered(rest, After(e, now))
    ensures Ordered([e] + rest, now)
    ensures e.Ask? ==> OrgOk(limits, OrgAt(limits, s, e.call.org, e.call.now), e.call.now)
    ensures StoreOk(limits, Step(limits, s, e).0, After(e, now))
    ensures Verdicts(limits, s, [e] + rest, now)
            == [Step(limits, s, e).1] + Verdicts(limits, Step(limits, s, e).0, rest, After(e, now))
  {
    StepOk(limits, s, e, now);
    assert ([e] + rest)[1..] == rest;
    hide StoreOk, Step, OrgOk, OrgAt;
  }

  lemma FirstIsInvisible(limits: Limits, s: Store, c: Call, rest: seq<Event>, now: int)
    requires StoreOk(limits, s, now) && now <= c.now && Ordered(rest, c.now)
    requires OrgOk(limits, OrgAt(limits, s, c.org, c.now), c.now) && Allow(limits, s, c).1.Rejected?
    requires StoreOk(limits, Allow(limits, s, c).0, c.now)
    ensures Ordered(rest, now)
    ensures Verdicts(limits, s, rest, now) == Verdicts(limits, Allow(limits, s, c).0, rest, c.now)
  {
    StoreLater(limits, s, now, c.now);
    RejectedAlike(limits, s, c);
    hide StoreOk, Allow, OrgOk, OrgAt, Verdicts;
    VerdictsAlike(limits, Allow(limits, s, c).0, c.now, s, now, rest, c.now);
  }

  /** Taking a rejected call out of a trace changes no other answer. */
  lemma {:induction false} RejectionsAreInvisible(limits: Limits, s: Store, events: seq<Event>, now: int, k: nat)
    requires StoreOk(limits, s, now) && Ordered(events, now) && k < |events|
    requires Verdicts(limits, s, events, now)[k].Some? && Verdicts(limits, s, events, now)[k].value.Rejected?
    ensures Ordered(Without(events, k), now)
    ensures Verdicts(limits, s, Without(events, k), now) == Without(Verdicts(limits, s, events, now), k)
    decreases |events|
  {
    var e, rest := events[0], events[1..];
    assert events == [e] + rest && Ordered([e], now) && Ordered(rest, After(e, now));
    hide StoreOk, OrgOk, OrgAt, Verdicts, Without, Ordered, Allow;
    OneByOne(limits, s, e, rest, now);
    var (s', v) := Step(limits, s, e);
    var then_ := After(e, now);
    if k == 0 {
      WithoutFirst(e, rest);
      WithoutFirst(v, Verdicts(limits, s', rest, then_));
      assert e.Ask?;
      FirstIsInvisible(limits, s, e.call, rest, now);
    } else {
      WithoutLater(e, rest, k - 1);
      WithoutLater(v, Verdicts(limits, s', rest, then_), k - 1);
      RejectionsAreInvisible(limits, s', rest, then_, k - 1);
      OneByOne(limits, s, e, Without(rest, k - 1), now);
    }
  }

  /* ----- How many calls a bucket admits ----- */

  /** The bucket of an organization, or of one of its playground users. */
  datatype Meter = OrgMeter(org: string) | UserMeter(org: string, user: string)

  predicate Hits(m: Meter, c: Call) {
    c.org == m.org && c.org != "" && (m.OrgMeter? || (OnPlayground(c) && c.user == m.user))
  }

  function WindowOf(limits: Limits, m: Meter): Window {
    if m.OrgMeter? then limits.organization else limits.playground
  }

  function BucketIn(limits: Limits, o: OrgState, m: Meter, now: int): Bucket {
    if m.OrgMeter? then o.rpm else PlaygroundAt(limits, o, m.user, now)
  }

  function Level(limits: Limits, s: Store, m: Meter, now: int): real {
    Refill(BucketIn(limits, OrgAt(limits, s, m.org, now), m, now), now).tokens
  }

  function RateIn(limits: Limits, m: Meter): real {
    RateOf(WindowOf(limits, m).rpm)
  }

  function BurstIn(limits: Limits, m: Meter): real {
    AtLeastOne(WindowOf(limits, m).burst) as real
  }

  /** The calls on a bucket admitted between two instants. */
  function AdmittedIn(events: seq<Event>, vs: seq<Option<Verdict>>, m: Meter, from_: int, to: int): nat
    requires |vs| == |events|
    decreases |events|
  {
    if events == [] then 0
    else
      var e := events[0];
      (if e.Ask? && Hits(m, e.call) && from_ <= e.call.now <= to && vs[0].Some? && vs[0].value.Admitted? then 1 else 0)
      + AdmittedIn(events[1..], vs[1..], m, from_, to)
  }

  lemma LevelIsOk(limits: Limits, s: Store, m: Meter, now: int)
    requires StoreOk(limits, s, now)
    ensures BucketOk(BucketIn(limits, OrgAt(limits, s, m.org, now), m, now), WindowOf(limits, m).rpm, WindowOf(limits, m).burst, now)
    ensures 0.0 <= Level(limits, s, m, now) <= BurstIn(limits, m)
  {
    OrgAtOk(limits, s, m.org, now, now);
    var b := BucketIn(limits, OrgAt(limits, s, m.org, now), m, now);
    RefillOk(b, WindowOf(limits, m).rpm, WindowOf(limits, m).burst, now, now);
    hide Refill, RateOf;
  }

  lemma LevelGrows(limits: Limits, s: Store, m: Meter, now: int, later: int)
    requires StoreOk(limits, s, now) && now <= later
    ensures Level(limits, s, m, later) <= Level(limits, s, m, now) + Gain(RateIn(limits, m), later - now)
  {
    LevelIsOk(limits, s, m, now);
    SameMeterLater(limits, s, m, now, later);
    var w := WindowOf(limits, m);
    var b := BucketIn(limits, OrgAt(limits, s, m.org, now), m, now);
    RefillTwice(b, w.rpm, w.burst, now, later);
    RefillOk(b, w.rpm, w.burst, now, now);
    RefillOk(Refill(b, now), w.rpm, w.burst, now, later);
    hide Refill, Gain, OrgAt, BucketIn;
  }

  /** Whether the bucket exists yet makes no difference to its level. */
  lemma SameMeterLater(limits: Limits, s: Store, m: Meter, now: int, later: int)
    requires StoreOk(limits, s, now) && now <= later
    ensures Level(limits, s, m, later) == Refill(BucketIn(limits, OrgAt(limits, s, m.org, now), m, now), later).tokens
  {
    OrgLater(limits, s, m.org, now, later);
    if m.UserMeter? {
      PlaygroundLater(limits, OrgAt(limits, s, m.org, now), m.user, now, later);
      assert SameBucket(PlaygroundAt(limits, OrgAt(limits, s, m.org, now), m.user, later),
                        PlaygroundAt(limits, OrgAt(limits, s, m.org, later), m.user, later), later);
    }
    hide Refill, OrgAt, PlaygroundAt;
  }

  /** An admitted call costs each bucket it hits one token; a rejected one costs nothing. */
  lemma LevelAfterCall(limits: Limits, s: Store, c: Call, m: Meter)
    requires StoreOk(limits, s, c.now) && OrgOk(limits, OrgAt(limits, s, c.org, c.now), c.now)
    ensures var (s', v) := Allow(limits, s, c);
            Level(limits, s', m, c.now) == Level(limits, s, m, c.now) - if v.Admitted? && Hits(m, c) then 1.0 else 0.0
  {
    if c.org != "" {
      AllowedOrgs(limits, s, c);
      LevelInOrg(limits, OrgAt(limits, s, c.org, c.now), c, |s.slips|, m);
    }
    hide OrgAt, AllowIn, BucketIn, Refill;
  }

  lemma LevelInOrg(limits: Limits, o: OrgState, c: Call, id: nat, m: Meter)
    requires OrgOk(limits, o, c.now) && c.org != ""
    ensures var (o', v) := AllowIn(limits, o, c, id);
            m.org == c.org ==>
              Refill(BucketIn(limits, o', m, c.now), c.now).tokens
              == Refill(BucketIn(limits, o, m, c.now), c.now).tokens - if v.Admitted? && Hits(m, c) then 1.0 else 0.0
  {
    RpmSame(limits, o, o, c.now);
    RefillNow(limits, o.rpm, limits.organization, c.now);
    var o1 := SeenPlayground(limits, o, c);
    SeenUsers(limits, o, c);
    if OnPlayground(c) {
      RefreshedSame(limits, o, o, c.user, c.now);
      RefillNow(limits, PlaygroundAt(limits, o, c.user, c.now), limits.playground, c.now);
    }
    var o2 := o1.(rpm := Refill(o1.rpm, c.now));
    UsersOnly(limits, o1, o2, c.now);
    AdmitUsers(limits, o2, c);
    UserInSeen(limits, o, c);
    hide Refill, BucketOk, PlaygroundAt, RateError, Wait, OrgOk, SeenPlayground, SameBucket;
  }

  lemma UserInSeen(limits: Limits, o: OrgState, c: Call)
    ensures OnPlayground(c) ==>
              && c.user in SeenPlayground(limits, o, c).playground
              && SeenPlayground(limits, o, c).playground[c.user] == Refill(PlaygroundAt(limits, o, c.user, c.now), c.now)
    ensures SeenPlayground(limits, o, c).rpm == o.rpm
  {
    hide Refill;
  }

  lemma RefillNow(limits: Limits, b: Bucket, w: Window, now: int)
    requires BucketOk(b, w.rpm, w.burst, now)
    ensures Refill(b, now).last == now
    ensures Refill(Refill(b, now), now) == Refill(b, now)
    ensures Refill(Taken(Refill(b, now)), now) == Taken(Refill(b, now))
  {
    RefillOk(b, w.rpm, w.burst, now, now);
  }

  /** Who is admitted, exactly: a call whose user's bucket (on the playground) and organization's
      bucket hold a token and whose organization has room. The answer names the first check that
      fails, and what is left. */
  lemma AdmittedExactly(limits: Limits, s: Store, c: Call)
    requires StoreOk(limits, s, c.now) && OrgOk(limits, OrgAt(limits, s, c.org, c.now), c.now) && c.org != ""
    ensures var (s', v) := Allow(limits, s, c);
            var userHas := OnPlayground(c) ==> Level(limits, s, UserMeter(c.org, c.user), c.now) >= 1.0;
            var orgHas := Level(limits, s, OrgMeter(c.org), c.now) >= 1.0;
            var room := OrgAt(limits, s, c.org, c.now).inflight < AtLeastOne(limits.concurrent);
            && (v.Admitted? <==> userHas && orgHas && room)
            && (v.Admitted? || v.Rejected?)
            && (v.Rejected? ==> v.scope == if !userHas then Playground else if !orgHas then Organization else Concurrency)
            && (v.Admitted? ==> v.remaining == Level(limits, s', OrgMeter(c.org), c.now).Floor >= 0)
  {
    var o := OrgAt(limits, s, c.org, c.now);
    LevelAfterCall(limits, s, c, OrgMeter(c.org));
    AllowOk(limits, s, c, c.now);
    LevelIsOk(limits, Allow(limits, s, c).0, OrgMeter(c.org), c.now);
    UserInSeen(limits, o, c);
    RefillNow(limits, o.rpm, limits.organization, c.now);
    hide Refill, PlaygroundAt, BucketOk, Wait, SeenPlayground;
  }

  lemma LevelAfterStep(limits: Limits, s: Store, e: Event, m: Meter, now: int)
    requires StoreOk(limits, s, now) && Ordered([e], now)
    requires e.Ask? ==> OrgOk(limits, OrgAt(limits, s, e.call.org, e.call.now), e.call.now)
    ensures var (s', v) := Step(limits, s, e);
            Level(limits, s', m, After(e, now)) + (if e.Ask? && v.value.Admitted? && Hits(m, e.call) then 1.0 else 0.0)
            <= Level(limits, s, m, now) + Gain(RateIn(limits, m), After(e, now) - now)
  {
    match e
    case Ask(c) =>
      LevelGrows(limits, s, m, now, c.now);
      StoreLater(limits, s, now, c.now);
      LevelAfterCall(limits, s, c, m);
      hide Level, Allow, Gain, OrgOk;
    case Free(id) =>
      ReleasedOrgs(limits, s, id, now);
      UsersOnly(limits, OrgAt(limits, s, m.org, now), OrgAt(limits, Release(s, id), m.org, now), now);
      GainNothing(RateIn(limits, m));
      hide OrgAt, Release, Refill, PlaygroundAt, Gain;
  }

  lemma {:induction false} NobodyAfter(events: seq<Event>, vs: seq<Option<Verdict>>, m: Meter, from_: int,
          to: int, now: int)
    requires |vs| == |events| && Ordered(events, now) && to < now
    ensures AdmittedIn(events, vs, m, from_, to) == 0
    decreases |events|
  {
    if events != [] {
      NobodyAfter(events[1..], vs[1..], m, from_, to, After(events[0], now));
    }
  }

  /** The first event's admission is paid for by the fall of the level. */
  lemma FirstPays(limits: Limits, s: Store, e: Event, rest: seq<Event>, now: int, m: Meter, from_: int, to: int)
    requires StoreOk(limits, s, now) && Ordered([e], now) && Ordered(rest, After(e, now))
    ensures Ordered([e] + rest, now)
    ensures e.Ask? ==> OrgOk(limits, OrgAt(limits, s, e.call.org, e.call.now), e.call.now)
    ensures var s' := Step(limits, s, e).0;
            && StoreOk(limits, s', After(e, now))
            && AdmittedIn([e] + rest, Verdicts(limits, s, [e] + rest, now), m, from_, to) as real
               <= AdmittedIn(rest, Verdicts(limits, s', rest, After(e, now)), m, from_, to) as real
                  + Level(limits, s, m, now) + Gain(RateIn(limits, m), After(e, now) - now) - Level(limits, s', m, After(e, now))
  {
    OneByOne(limits, s, e, rest, now);
    LevelAfterStep(limits, s, e, m, now);
    var vs := Verdicts(limits, Step(limits, s, e).0, rest, After(e, now));
    assert ([e] + rest)[1..] == rest && ([Step(limits, s, e).1] + vs)[1..] == vs;
    hide Level, Gain, StoreOk, OrgOk, OrgAt, Hits, RateIn, Verdicts, Allow;
  }

  lemma PaysOn(limits: Limits, s: Store, e: Event, rest: seq<Event>, now: int, m: Meter, from_: int, to: int)
    requires StoreOk(limits, s, now) && Ordered([e], now) && Ordered(rest, After(e, now))
    requires e.Ask? ==> OrgOk(limits, OrgAt(limits, s, e.call.org, e.call.now), e.call.now)
    requires var s' := Step(limits, s, e).0;
             && StoreOk(limits, s', After(e, now))
             && AdmittedIn(rest, Verdicts(limits, s', rest, After(e, now)), m, from_, to) as real
                <= Level(limits, s', m, After(e, now)) + Gain(RateIn(limits, m), to - After(e, now))
    ensures Ordered([e] + rest, now)
    ensures AdmittedIn([e] + rest, Verdicts(limits, s, [e] + rest, now), m, from_, to) as real
            <= Level(limits, s, m, now) + Gain(RateIn(limits, m), to - now)
  {
    hide *;
    FirstPays(limits, s, e, rest, now, m, from_, to);
    GainAdds(RateIn(limits, m), After(e, now) - now, to - After(e, now));
    assert After(e, now) - now + (to - After(e, now)) == to - now;
  }

  lemma {:induction false} LevelPaysForCalls(limits: Limits, s: Store, events: seq<Event>, now: int, m: Meter,
          from_: int, to: int)
    requires StoreOk(limits, s, now) && Ordered(events, now) && now <= to
    ensures AdmittedIn(events, Verdicts(limits, s, events, now), m, from_, to) as real
            <= Level(limits, s, m, now) + Gain(RateIn(limits, m), to - now)
    decreases |events|
  {
    hide StoreOk, OrgOk, OrgAt, Step, Level, Gain, BurstIn, AdmittedIn, Verdicts;
    if events == [] || After(events[0], now) > to {
      LevelIsOk(limits, s, m, now);
      GainPositive(RateIn(limits, m), to - now);
      NobodyAfter(events, Verdicts(limits, s, events, now), m, from_, to, to + 1);
    } else {
      var e, rest := events[0], events[1..];
      assert events == [e] + rest && Ordered([e], now) && Ordered(rest, After(e, now));
      StepOk(limits, s, e, now);
      LevelPaysForCalls(limits, Step(limits, s, e).0, rest, After(e, now), m, from_, to);
      PaysOn(limits, s, e, rest, now, m, from_, to);
    }
  }

  /** In every interval of every trace, each organization's bucket and each playground user's
      bucket admits at most its burst plus what flows in during the interval. */
  lemma {:induction false} AdmissionsAreBounded(limits: Limits, s: Store, events: seq<Event>, now: int,
          m: Meter, from_: int, to: int)
    requires StoreOk(limits, s, now) && Ordered(events, now) && from_ <= to
    ensures AdmittedIn(events, Verdicts(limits, s, events, now), m, from_, to) as real
            <= BurstIn(limits, m) + Gain(RateIn(limits, m), to - from_)
    decreases |events|
  {
    GainPositive(RateIn(limits, m), to - from_);
    if now >= from_ && now <= to {
      LevelPaysForCalls(limits, s, events, now, m, from_, to);
      LevelIsOk(limits, s, m, now);
      GainAdds(RateIn(limits, m), now - from_, to - now);
      GainPositive(RateIn(limits, m), now - from_);
      assert now - from_ + (to - now) == to - from_;
    } else if now > to {
      NobodyAfter(events, Verdicts(limits, s, events, now), m, from_, to, now);
    } else if events != [] {
      var then_ := After(events[0], now);
      if then_ >= from_ {
        SinceThen(limits, s, events, now, m, from_, to);
      } else {
        StepOk(limits, s, events[0], now);
        var (s', v) := Step(limits, s, events[0]);
        AdmissionsAreBounded(limits, s', events[1..], then_, m, from_, to);
        assert Verdicts(limits, s, events, now)[1..] == Verdicts(limits, s', events[1..], then_);
      }
    }
    hide Level, Gain, StoreOk, Step, OrgOk, OrgAt, Hits, RateIn, RateOf, BurstIn;
  }

  /** Nothing happens before the interval: the trace may as well begin with it. */
  lemma SinceThen(limits: Limits, s: Store, events: seq<Event>, now: int, m: Meter, from_: int, to: int)
    requires StoreOk(limits, s, now) && Ordered(events, now) && now <= from_ <= to
    requires events != [] && events[0].Ask? && events[0].call.now >= from_
    ensures AdmittedIn(events, Verdicts(limits, s, events, now), m, from_, to) as real
            <= BurstIn(limits, m) + Gain(RateIn(limits, m), to - from_)
  {
    StoreLater(limits, s, now, from_);
    LevelIsOk(limits, s, m, from_);
    LevelPaysForCalls(limits, s, events, from_, m, from_, to);
    assert Verdicts(limits, s, events, from_) == Verdicts(limits, s, events, now);
    hide Level, Gain, StoreOk, OrgOk, OrgAt, Hits, RateIn, RateOf, BurstIn;
  }

  /* ----- Calls in flight ----- */

  function OpenSlips(slips: seq<Slip>, org: string): nat
    decreases |slips|
  {
    if slips == [] then 0
    else (if slips[0].org == org && !slips[0].released then 1 else 0) + OpenSlips(slips[1..], org)
  }

  lemma {:induction false} OneMoreSlip(slips: seq<Slip>, slip: Slip, org: string)
    ensures OpenSlips(slips + [slip], org) == OpenSlips(slips, org) + if slip.org == org && !slip.released then 1 else 0
    decreases |slips|
  {
    if slips == [] {
      assert ([] + [slip])[1..] == [];
    } else {
      OneMoreSlip(slips[1..], slip, org);
      assert (slips + [slip])[1..] == slips[1..] + [slip];
    }
  }

  lemma {:induction false} OneSlipLess(slips: seq<Slip>, id: nat, org: string)
    requires id < |slips| && !slips[id].released
    ensures OpenSlips(slips[id := Slip(slips[id].org, true)], org)
            == OpenSlips(slips, org) - if slips[id].org == org then 1 else 0
    decreases |slips|
  {
    if id > 0 {
      OneSlipLess(slips[1..], id - 1, org);
      assert slips[id := Slip(slips[id].org, true)][1..] == slips[1..][id - 1 := Slip(slips[id].org, true)];
    }
  }

  /** An organization's counter is the number of its reservations that are not released, and stays
      within its limit. */
  ghost predicate Counted(limits: Limits, s: Store) {
    && (forall org :: org in s.orgs ==> s.orgs[org].inflight == OpenSlips(s.slips, org) <= AtLeastOne(limits.concurrent))
    && (forall org :: org !in s.orgs ==> OpenSlips(s.slips, org) == 0)
  }

  /** The guard against a negative counter never fails: a first release always finds the
      organization with at least one call in flight. */
  lemma GuardNeverFails(limits: Limits, s: Store, id: nat)
    requires Counted(limits, s) && id < |s.slips| && !s.slips[id].released
    ensures s.slips[id].org in s.orgs && s.orgs[s.slips[id].org].inflight > 0
  {
    OneSlipLess(s.slips, id, s.slips[id].org);
  }

  lemma ReleaseCounts(limits: Limits, s: Store, id: nat)
    requires Counted(limits, s)
    ensures Counted(limits, Release(s, id))
  {
    if id < |s.slips| && !s.slips[id].released {
      GuardNeverFails(limits, s, id);
      forall org
        ensures OpenSlips(s.slips[id := Slip(s.slips[id].org, true)], org)
                == OpenSlips(s.slips, org) - if s.slips[id].org == org then 1 else 0
      {
        OneSlipLess(s.slips, id, org);
      }
    }
    hide OpenSlips, AtLeastOne;
  }

  lemma AllowCounts(limits: Limits, s: Store, c: Call)
    requires Counted(limits, s) && c.org != "" && OrgOk(limits, OrgAt(limits, s, c.org, c.now), c.now)
    ensures Counted(limits, Allow(limits, s, c).0)
  {
    var v := Allow(limits, s, c).1;
    CallCounts(limits, OrgAt(limits, s, c.org, c.now), c, |s.slips|);
    forall org
      ensures OpenSlips(s.slips + [Slip(c.org, false)], org) == OpenSlips(s.slips, org) + if c.org == org then 1 else 0
    {
      OneMoreSlip(s.slips, Slip(c.org, false), org);
    }
    hide OpenSlips, AllowIn, BucketOk, NewBucket;
  }

  lemma CallCounts(limits: Limits, o: OrgState, c: Call, id: nat)
    requires OrgOk(limits, o, c.now)
    ensures var (o', v) := AllowIn(limits, o, c, id);
            && o'.inflight == o.inflight + (if v.Admitted? then 1 else 0)
            && (v.Admitted? ==> o.inflight < AtLeastOne(limits.concurrent))
  {
    hide Refill, BucketOk, PlaygroundAt, Taken, Wait;
  }

  /** Over every trace, however often reservations are released, the counters are exact. */
  lemma {:induction false} EveryTraceCounts(limits: Limits, s: Store, events: seq<Event>, now: int)
    requires StoreOk(limits, s, now) && Ordered(events, now) && Counted(limits, s)
    ensures Counted(limits, Final(limits, s, events, now))
    decreases |events|
  {
    if events != [] {
      StepOk(limits, s, events[0], now);
      match events[0] {
        case Ask(c) =>
          if c.org != "" {
            AllowCounts(limits, s, c);
          }
        case Free(id) => ReleaseCounts(limits, s, id);
      }
      EveryTraceCounts(limits, Step(limits, s, events[0]).0, events[1..], After(events[0], now));
    }
    hide Counted, StoreOk, Allow, Release, OrgOk, OrgAt;
  }

  /** What a bucket's rejection promises: left alone for the announced wait and one nanosecond, it
      has a token. */
  lemma RetryAfterSuffices(limits: Limits, s: Store, c: Call, later: int)
    requires StoreOk(limits, s, c.now) && OrgOk(limits, OrgAt(limits, s, c.org, c.now), c.now)
    requires Allow(limits, s, c).1.Rejected? && !Allow(limits, s, c).1.scope.Concurrency?
    requires later >= c.now + Allow(limits, s, c).1.retryAfter + 1
    ensures var m := if Allow(limits, s, c).1.scope.Playground? then UserMeter(c.org, c.user) else OrgMeter(c.org);
            Level(limits, Allow(limits, s, c).0, m, later) >= 1.0
  {
    var (s', v) := Allow(limits, s, c);
    var m := if v.scope.Playground? then UserMeter(c.org, c.user) else OrgMeter(c.org);
    AllowOk(limits, s, c, c.now);
    LevelIsOk(limits, s', m, c.now);
    SameMeterLater(limits, s', m, c.now, later);
    EmptyBucket(limits, s, c);
    var w := WindowOf(limits, m);
    WaitSuffices(BucketIn(limits, OrgAt(limits, s', m.org, c.now), m, c.now), w.rpm, w.burst, c.now, later);
  }

  lemma EmptyBucket(limits: Limits, s: Store, c: Call)
    requires StoreOk(limits, s, c.now) && OrgOk(limits, OrgAt(limits, s, c.org, c.now), c.now)
    requires Allow(limits, s, c).1.Rejected? && !Allow(limits, s, c).1.scope.Concurrency?
    ensures var (s', v) := Allow(limits, s, c);
            var m := if v.scope.Playground? then UserMeter(c.org, c.user) else OrgMeter(c.org);
            var b := BucketIn(limits, OrgAt(limits, s', m.org, c.now), m, c.now);
            b.last == c.now && b.tokens < 1.0 && b.rate > 0.0 && v.retryAfter >= Wait(b)
  {
    var o := OrgAt(limits, s, c.org, c.now);
    RefillNow(limits, o.rpm, limits.organization, c.now);
    if OnPlayground(c) {
      RefreshedSame(limits, o, o, c.user, c.now);
      RefillNow(limits, PlaygroundAt(limits, o, c.user, c.now), limits.playground, c.now);
    }
    hide Refill, Wait, RateOf;
  }
}
