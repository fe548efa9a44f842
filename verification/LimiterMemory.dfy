/** The limiter object. Each call runs under its organization's lock, so calls on one organization
    follow one another. */
module LimiterMemory {
  import opened Limiter
  import opened LimiterTraces

  class Memory {
    const limits: Limits
    var orgs: map<string, OrgState>
    var slips: seq<Slip>

    function Current(): Store
      reads this
    {
      Store(orgs, slips)
    }

    /** Consistent, and last touched at or before the given reading of the clock. */
    ghost predicate Valid(now: int)
      reads this
    {
      StoreOk(limits, Current(), now) && Counted(limits, Current())
    }

    constructor (limits: Limits)
      ensures Current() == EMPTY
      ensures this.limits == limits.(concurrent := AtLeastOne(limits.concurrent))
      ensures forall now :: Valid(now)
    {
      this.limits := if limits.concurrent < 1 then limits.(concurrent := 1) else limits;
      orgs, slips := map[], [];
    }

    /** The organization's state, made on first use. */
    method State(org: string, now: int)
      modifies this`orgs
      ensures orgs == old(orgs)[org := OrgAt(limits, old(Current()), org, now)]
    {
      if org !in orgs {
        orgs := orgs[org := NewOrg(limits, now)];
      } else {
        assert orgs[org := orgs[org]] == orgs;
      }
    }

    /** The user's bucket, made on first use. */
    method PlaygroundBucket(org: string, user: string, now: int)
      requires org in orgs
      modifies this`orgs
      ensures var o := old(orgs)[org];
              orgs == old(orgs)[org := o.(playground := o.playground[user := PlaygroundAt(limits, o, user, now)])]
    {
      var o := orgs[org];
      if user !in o.playground {
        orgs := orgs[org := o.(playground := o.playground[user := NewBucket(limits.playground.rpm, limits.playground.burst, now)])];
      } else {
        assert o.playground[user := o.playground[user]] == o.playground;
        assert orgs[org := o] == orgs;
      }
    }

    /** Admits or rejects one call, and keeps the books: the whole new state and the answer are
        those of the specification, and the counters stay exact. */
    method Ask(c: Call) returns (v: Verdict)
      requires Valid(c.now)
      modifies this
      ensures c.org != "" ==> OrgOk(limits, OrgAt(limits, old(Current()), c.org, c.now), c.now)
      ensures (Current(), v) == Allow(limits, old(Current()), c)
      ensures Valid(c.now)
    {
      if c.org == "" {
        return Unlimited;
      }
      AllowOk(limits, Current(), c, c.now);
      AllowCounts(limits, Current(), c);
      ghost var s := Current();
      ghost var o := OrgAt(limits, s, c.org, c.now);
      hide Refill, BucketOk, OrgAt, Counted, StoreOk, NewOrg, PlaygroundAt, Wait;
      State(c.org, c.now);
      v := Decide(c, s, o);
    }

    method Decide(c: Call, ghost s: Store, ghost o: OrgState) returns (v: Verdict)
      requires c.org in orgs && orgs == s.orgs[c.org := o] && slips == s.slips && OrgOk(limits, o, c.now)
      modifies this
      ensures var (o', w) := AllowIn(limits, o, c, |s.slips|);
              && v == w
              && orgs == s.orgs[c.org := o']
              && slips == if w.Admitted? then s.slips + [Slip(c.org, false)] else s.slips
    {
      UserInSeen(limits, o, c);
      hide Refill, BucketOk, PlaygroundAt, Wait;
      if c.playground && c.user != "" {
        PlaygroundBucket(c.org, c.user, c.now);
        var st := orgs[c.org];
        var pg := Refill(st.playground[c.user], c.now);
        orgs := orgs[c.org := st.(playground := st.playground[c.user := pg])];
        assert orgs[c.org].playground == SeenPlayground(limits, o, c).playground;
        if pg.tokens < 1.0 {
          RatePositive(limits, o, c);
          return RateError(Playground, limits.playground.rpm, 0, Wait(pg), c.now);
        }
      }
      var st := orgs[c.org];
      assert st == SeenPlayground(limits, o, c);
      st := st.(rpm := Refill(st.rpm, c.now));
      orgs := orgs[c.org := st];
      if st.rpm.tokens < 1.0 {
        RatePositive(limits, o, c);
        return RateError(Organization, limits.organization.rpm, 0, Wait(st.rpm), c.now);
      }
      if st.inflight >= st.max {
        return RateError(Concurrency, limits.organization.rpm, st.rpm.tokens.Floor, NANOS_PER_SECOND, c.now);
      }
      v := Take(c, s, st);
    }

    method Take(c: Call, ghost s: Store, st: OrgState) returns (v: Verdict)
      requires c.org in orgs && orgs == s.orgs[c.org := st] && slips == s.slips
      requires OnPlayground(c) ==> c.user in st.playground
      modifies this
      ensures v == Admitted(|s.slips|, limits.organization.rpm, Admit(st, c).rpm.tokens.Floor, c.now + 60 * NANOS_PER_SECOND)
      ensures orgs == s.orgs[c.org := Admit(st, c)] && slips == s.slips + [Slip(c.org, false)]
    {
      var taken := st;
      if c.playground && c.user != "" {
        taken := taken.(playground := taken.playground[c.user := Taken(taken.playground[c.user])]);
      }
      taken := taken.(rpm := Taken(taken.rpm));
      taken := taken.(inflight := taken.inflight + 1);
      orgs := orgs[c.org := taken];
      v := Admitted(|slips|, limits.organization.rpm, taken.rpm.tokens.Floor, c.now + 60 * NANOS_PER_SECOND);
      slips := slips + [Slip(c.org, false)];
    }

    /** Gives a reservation back; only the first time counts, and then the counter is above zero. */
    method Free(id: nat, ghost now: int)
      requires Valid(now)
      modifies this
      ensures Current() == Release(old(Current()), id)
      ensures Valid(now)
    {
      if id >= |slips| || slips[id].released {
        return;
      }
      ReleaseCounts(limits, Current(), id);
      GuardNeverFails(limits, Current(), id);
      hide OpenSlips, BucketOk, Counted;
      var org := slips[id].org;
      slips := slips[id := Slip(org, true)];
      if orgs[org].inflight > 0 {
        orgs := orgs[org := orgs[org].(inflight := orgs[org].inflight - 1)];
      }
    }
  }

  lemma RatePositive(limits: Limits, o: OrgState, c: Call)
    requires OrgOk(limits, o, c.now)
    ensures Refill(o.rpm, c.now).rate > 0.0
    ensures Refill(PlaygroundAt(limits, o, c.user, c.now), c.now).rate > 0.0
  {
  }
}
