/** The load rule of the pool: each reservation goes to an account with the largest `remaining / (leases + 1)`. */
module PoolFairness {
  // Over a run of reservations this spreads leases max-min fairly: no other way to place the same number of leases
  // gives the worst-off lease more quota.

  import opened Wrappers
  import opened AccountUsages
  import opened Pool

  // ---------------------------------------------------------------- who is a candidate

  predicate Eligible(st: PoolState, usages: map<string, AccountUsage>, w: World, p: string) {
    CapacityOf(usages, p).Some?
    && HealthEligible(RecoveredHealth(HealthOf(st, p), w.Fingerprint(p), w.now), w.now)
  }

  lemma ChangeRecovers(st: PoolState, p: string, w: World, q: string)
    ensures HealthOf(HealthAfterAuthChange(st, p, w), q)
      == if q == p then RecoveredHealth(HealthOf(st, p), w.Fingerprint(p), w.now) else HealthOf(st, q)
  {
  }

  lemma RecoveredTwice(h: PoolHealth, file: Option<string>, now: real)
    ensures RecoveredHealth(RecoveredHealth(h, file, now), file, now) == RecoveredHealth(h, file, now)
  {
  }

  lemma {:induction false} CandidatesRecover(
    st: PoolState, profiles: seq<string>, usages: map<string, AccountUsage>, w: World, p: string)
    ensures HealthOf(Candidates(st, profiles, usages, w).0, p)
      == if p in profiles then RecoveredHealth(HealthOf(st, p), w.Fingerprint(p), w.now) else HealthOf(st, p)
  {
    if profiles != [] {
      var front, last := profiles[..|profiles| - 1], profiles[|profiles| - 1];
      assert profiles == front + [last];
      CandidatesRecover(st, front, usages, w, p);
      ChangeRecovers(Candidates(st, front, usages, w).0, last, w, p);
      RecoveredTwice(HealthOf(st, p), w.Fingerprint(p), w.now);
    }
  }

  /**
   * The candidate loop, declaratively: exactly the eligible accounts, each with its true load, and each health
   * recovered.
   */
  lemma {:induction false} CandidatesAre(
    st: PoolState, profiles: seq<string>, usages: map<string, AccountUsage>, w: World)
    ensures var (after, cands) := Candidates(st, profiles, usages, w);
      && (forall p :: HealthOf(after, p) ==
            if p in profiles then RecoveredHealth(HealthOf(st, p), w.Fingerprint(p), w.now) else HealthOf(st, p))
      && (forall c :: c in cands ==>
            && c.profile in profiles && Eligible(st, usages, w, c.profile)
            && c == CandidateFor(st, c.profile, CapacityOf(usages, c.profile).value))
      && (forall p :: p in profiles && Eligible(st, usages, w, p) ==>
            CandidateFor(st, p, CapacityOf(usages, p).value) in cands)
  {
    if profiles != [] {
      var front, last := profiles[..|profiles| - 1], profiles[|profiles| - 1];
      assert profiles == front + [last];
      CandidatesAre(st, front, usages, w);
      forall p { CandidatesRecover(st, profiles, usages, w, p); }
      CandidatesRecover(st, front, usages, w, last);
      ChangeRecovers(Candidates(st, front, usages, w).0, last, w, last);
      RecoveredTwice(HealthOf(st, last), w.Fingerprint(last), w.now);
    }
  }

  /** What a granted reservation says about the account it picked. */
  lemma ReserveGrants(
    st: PoolState, policy: PoolPolicy, profiles: seq<string>, usages: map<string, AccountUsage>,
    req: ReserveRequest, w: World)
    requires Reserve(st, policy, profiles, usages, req, w).1.Reserved?
    ensures var (after, r) := Reserve(st, policy, profiles, usages, req, w);
      && after.leases == LiveLeases(st.leases, policy, w) + [r.lease]
      && after.nextId == st.nextId + 1 && r.lease.id == st.nextId
      && r.lease.owner == req.owner && r.lease.heartbeat == w.now
      && r.lease.profile in profiles
      && Eligible(Prune(st, policy, w), usages, w, r.lease.profile)
  {
    CandidatesAre(Prune(st, policy, w), profiles, usages, w);
  }

  /** The request has a route and must or would rather keep to its account. */
  predicate KeepsRoute(st: PoolState, req: ReserveRequest) {
    req.Routed() && req.routeKey.value in st.routes && (!req.allowMigrate || req.recoverSticky)
  }

  /** The account is listed and eligible, and no such account comes before it. */
  predicate IsFirst(
    st: PoolState, profiles: seq<string>, usages: map<string, AccountUsage>, w: World, selectedAt: map<string, real>,
    p: string)
  {
    && p in profiles && Eligible(st, usages, w, p)
    && forall q :: q in profiles && Eligible(st, usages, w, q) ==>
      !KeyLess(CandidateFor(st, q, CapacityOf(usages, q).value), CandidateFor(st, p, CapacityOf(usages, p).value),
               selectedAt)
  }

  lemma BestIsFirst(st: PoolState, profiles: seq<string>, usages: map<string, AccountUsage>, w: World)
    ensures var (seen, cands) := Candidates(st, profiles, usages, w);
      if cands == [] then forall p :: p in profiles ==> !Eligible(st, usages, w, p)
      else IsFirst(st, profiles, usages, w, seen.selectedAt, Best(cands, seen.selectedAt).profile)
  {
    CandidatesAre(st, profiles, usages, w);
    var (seen, cands) := Candidates(st, profiles, usages, w);
    if cands != [] {
      assert Best(cands, seen.selectedAt) in cands;
    }
  }

  lemma NamedIsEligible(st: PoolState, profiles: seq<string>, usages: map<string, AccountUsage>, w: World, p: string)
    ensures Named(Candidates(st, profiles, usages, w).1, p).Some? <==> p in profiles && Eligible(st, usages, w, p)
  {
    CandidatesAre(st, profiles, usages, w);
  }

  /**
   * Which account a request gets: that of its route, exactly when it is listed and eligible. Otherwise one that may
   * recover gets the first of the eligible accounts, as one without a route does, and any other is refused; and there
   * is no account only when none is eligible.
   */
  lemma RouteDecides(
    st: PoolState, policy: PoolPolicy, profiles: seq<string>, usages: map<string, AccountUsage>, req: ReserveRequest,
    w: World)
    ensures var pruned, r := Prune(st, policy, w), Reserve(st, policy, profiles, usages, req, w).1;
      var kept := if KeepsRoute(st, req) then Some(st.routes[req.routeKey.value].profile) else None;
      var selectedAt := Candidates(pruned, profiles, usages, w).0.selectedAt;
      if kept.Some? && kept.value in profiles && Eligible(pruned, usages, w, kept.value)
      then r.Reserved? && r.lease.profile == kept.value
      else if kept.Some? && !req.recoverSticky then r.StickyUnavailable?
      else if r.Reserved? then IsFirst(pruned, profiles, usages, w, selectedAt, r.lease.profile)
      else r.NoAccount? && forall p :: p in profiles ==> !Eligible(pruned, usages, w, p)
  {
    var pruned := Prune(st, policy, w);
    BestIsFirst(pruned, profiles, usages, w);
    if KeepsRoute(st, req) {
      NamedIsEligible(pruned, profiles, usages, w, st.routes[req.routeKey.value].profile);
    }
  }

  // ---------------------------------------------------------------- the greedy choice

  function Quota(usages: map<string, AccountUsage>, p: string): real
    requires CapacityOf(usages, p).Some?
  {
    CapacityOf(usages, p).value.remaining
  }

  /** A lease of an account with quota a and m leases would not gain by moving to one with quota b and n leases. */
  predicate NoGain(a: real, m: nat, b: real, n: nat) {
    a * (n + 1) as real >= b * m as real
  }

  lemma GreedyChoiceHasNoGain(a: real, m: nat, b: real, n: nat)
    requires a / (m + 1) as real >= b / (n + 1) as real
    ensures NoGain(a, m + 1, b, n)
  {
    var x, y := (m + 1) as real, (n + 1) as real;
    assert a == (a / x) * x && b == (b / y) * y;
    assert (a / x) * (x * y) >= (b / y) * (x * y);
  }

  lemma HigherEffectiveHasNoGain(st: PoolState, p: string, cp: Capacity, q: string, cq: Capacity)
    requires CandidateFor(st, p, cp).effective >= CandidateFor(st, q, cq).effective
    ensures NoGain(cp.remaining, LeaseCount(st.leases, p) + 1, cq.remaining, LeaseCount(st.leases, q))
  {
    GreedyChoiceHasNoGain(cp.remaining, LeaseCount(st.leases, p), cq.remaining, LeaseCount(st.leases, q));
  }

  /** Without a route, the lease goes to an account from which it would not gain by moving to any other. */
  lemma UnroutedReserveHasNoGain(
    st: PoolState, policy: PoolPolicy, profiles: seq<string>, usages: map<string, AccountUsage>,
    req: ReserveRequest, w: World, q: string)
    requires !req.Routed()
    requires q in profiles && Eligible(Prune(st, policy, w), usages, w, q)
    ensures var r := Reserve(st, policy, profiles, usages, req, w).1;
      var live := LiveLeases(st.leases, policy, w);
      && r.Reserved?
      && var p := r.lease.profile;
         && CapacityOf(usages, p).Some?
         && NoGain(Quota(usages, p), LeaseCount(live, p) + 1, Quota(usages, q), LeaseCount(live, q))
  {
    var pruned := Prune(st, policy, w);
    CandidatesAre(pruned, profiles, usages, w);
    var (seen, cands) := Candidates(pruned, profiles, usages, w);
    var best, mine := Best(cands, seen.selectedAt), CandidateFor(pruned, q, CapacityOf(usages, q).value);
    assert !KeyLess(mine, best, seen.selectedAt);
    HigherEffectiveHasNoGain(
      pruned, best.profile, CapacityOf(usages, best.profile).value, q, CapacityOf(usages, q).value);
  }

  // ---------------------------------------------------------------- runs of reservations

  /** Unrouted reservations over fixed accounts and usages, in which no earlier lease is pruned by a later one. */
  predicate SpreadRun(
    es: seq<PoolEvent>, policy: PoolPolicy, profiles: seq<string>, usages: map<string, AccountUsage>) {
    && (forall i :: 0 <= i < |es| ==>
          es[i].EvReserve? && es[i].profiles == profiles && es[i].usages == usages && !es[i].req.Routed())
    && (forall i, j :: 0 <= i < j < |es| ==>
          && es[i].EvReserve?
          && OwnerIsAlive(es[i].req.owner, es[j].w.alive)
          && es[j].w.now - es[i].w.now <= policy.staleLeaseSeconds)
  }

  predicate AllHealthy(st: PoolState, profiles: seq<string>) {
    forall p :: p in profiles ==> HealthOf(st, p).status == Healthy
  }

  /** The exchange condition of divisor methods: moving a lease from p to q never helps. */
  predicate Fair(leases: seq<PoolLease>, profiles: seq<string>, usages: map<string, AccountUsage>) {
    && (forall l :: l in leases ==> l.profile in profiles && CapacityOf(usages, l.profile).Some?)
    && (forall p, q ::
          (&& p in profiles && q in profiles
           && CapacityOf(usages, p).Some? && CapacityOf(usages, q).Some? && LeaseCount(leases, p) > 0) ==>
            NoGain(Quota(usages, p), LeaseCount(leases, p), Quota(usages, q), LeaseCount(leases, q)))
  }

  lemma {:induction false} AllLive(leases: seq<PoolLease>, policy: PoolPolicy, w: World)
    requires forall l :: l in leases ==> LeaseLives(l, policy, w)
    ensures LiveLeases(leases, policy, w) == leases
  {
    if leases != [] {
      AllLive(leases[..|leases| - 1], policy, w);
    }
  }

  lemma LoadedTargetHasNoGain(a: real, m: nat, b: real, n: nat)
    requires a >= 0.0 && NoGain(a, m, b, n)
    ensures NoGain(a, m, b, n + 1)
  {
    assert a * (n + 2) as real == a * (n + 1) as real + a;
  }

  lemma LeaseCountAppend(leases: seq<PoolLease>, lease: PoolLease, p: string)
    ensures LeaseCount(leases + [lease], p) == LeaseCount(leases, p) + if p == lease.profile then 1 else 0
  {
    assert (leases + [lease])[..|leases|] == leases;
  }

  lemma MovedLoadHasNoGain(
    leases: seq<PoolLease>, lease: PoolLease, profiles: seq<string>, usages: map<string, AccountUsage>, p: string,
    q: string)
    requires Fair(leases, profiles, usages)
    requires p in profiles && q in profiles && CapacityOf(usages, p).Some? && CapacityOf(usages, q).Some?
    requires p == lease.profile ==>
      NoGain(Quota(usages, p), LeaseCount(leases, p) + 1, Quota(usages, q), LeaseCount(leases, q))
    requires LeaseCount(leases + [lease], p) > 0
    ensures NoGain(
      Quota(usages, p), LeaseCount(leases + [lease], p), Quota(usages, q), LeaseCount(leases + [lease], q))
  {
    LeaseCountAppend(leases, lease, p);
    LeaseCountAppend(leases, lease, q);
    assert NoGain(Quota(usages, p), LeaseCount(leases + [lease], p), Quota(usages, q), LeaseCount(leases, q));
    if q == lease.profile {
      LoadedTargetHasNoGain(
        Quota(usages, p), LeaseCount(leases + [lease], p), Quota(usages, q), LeaseCount(leases, q));
    }
  }

  /** A lease of this account would not gain by going to any other. */
  predicate GainsNowhere(leases: seq<PoolLease>, p: string, profiles: seq<string>, usages: map<string, AccountUsage>) {
    && p in profiles && CapacityOf(usages, p).Some?
    && forall q :: q in profiles && CapacityOf(usages, q).Some? ==>
      NoGain(Quota(usages, p), LeaseCount(leases, p) + 1, Quota(usages, q), LeaseCount(leases, q))
  }

  lemma GreedyStepKeepsFair(
    leases: seq<PoolLease>, lease: PoolLease, profiles: seq<string>, usages: map<string, AccountUsage>)
    requires Fair(leases, profiles, usages) && GainsNowhere(leases, lease.profile, profiles, usages)
    ensures Fair(leases + [lease], profiles, usages)
  {
    var after := leases + [lease];
    forall p, q | p in profiles && q in profiles
        && CapacityOf(usages, p).Some? && CapacityOf(usages, q).Some? && LeaseCount(after, p) > 0
      ensures NoGain(Quota(usages, p), LeaseCount(after, p), Quota(usages, q), LeaseCount(after, q))
    {
      MovedLoadHasNoGain(leases, lease, profiles, usages, p, q);
    }
  }

  /** Along a run nothing is pruned, no health changes, and the leases stay fair. */
  lemma {:induction false} SpreadIsFair(
    policy: PoolPolicy, st: PoolState, es: seq<PoolEvent>, profiles: seq<string>, usages: map<string, AccountUsage>)
    requires st.leases == [] && AllHealthy(st, profiles)
    requires SpreadRun(es, policy, profiles, usages)
    ensures var after := Run(policy, st, es);
      && Fair(after.leases, profiles, usages)
      && AllHealthy(after, profiles)
      && (forall l :: l in after.leases ==>
            exists i :: 0 <= i < |es| && es[i].EvReserve? && l.owner == es[i].req.owner && l.heartbeat == es[i].w.now)
      && |after.leases| == if exists p :: p in profiles && CapacityOf(usages, p).Some? then |es| else 0
  {
    if es != [] {
      var before, e := es[..|es| - 1], es[|es| - 1];
      assert forall i :: 0 <= i < |before| ==> before[i] == es[i];
      SpreadIsFair(policy, st, before, profiles, usages);
      var mid := Run(policy, st, before);
      forall l | l in mid.leases ensures LeaseLives(l, policy, e.w) {
        var i :| 0 <= i < |before| && before[i].EvReserve? && l.owner == before[i].req.owner
          && l.heartbeat == before[i].w.now;
        assert es[i] == before[i];
      }
      AllLive(mid.leases, policy, e.w);
      SpreadStep(policy, mid, e, profiles, usages);
      var after := Run(policy, st, es);
      forall l | l in after.leases
        ensures exists i ::
          0 <= i < |es| && es[i].EvReserve? && l.owner == es[i].req.owner && l.heartbeat == es[i].w.now
      {
        if l in mid.leases {
          var i :| 0 <= i < |before| && before[i].EvReserve? && l.owner == before[i].req.owner
            && l.heartbeat == before[i].w.now;
          assert es[i] == before[i];
        } else {
          assert es[|es| - 1] == e;
        }
      }
    }
  }

  lemma ReserveKeepsHealthy(
    mid: PoolState, policy: PoolPolicy, profiles: seq<string>, usages: map<string, AccountUsage>,
    req: ReserveRequest, w: World)
    requires AllHealthy(mid, profiles)
    ensures AllHealthy(Prune(mid, policy, w), profiles)
    ensures AllHealthy(Reserve(mid, policy, profiles, usages, req, w).0, profiles)
  {
    CandidatesAre(Prune(mid, policy, w), profiles, usages, w);
  }

  lemma SpreadStep(
    policy: PoolPolicy, mid: PoolState, e: PoolEvent, profiles: seq<string>, usages: map<string, AccountUsage>)
    requires Fair(mid.leases, profiles, usages) && AllHealthy(mid, profiles)
    requires e.EvReserve? && e.profiles == profiles && e.usages == usages && !e.req.Routed()
    requires LiveLeases(mid.leases, policy, e.w) == mid.leases
    ensures var after := Apply(policy, mid, e);
      && Fair(after.leases, profiles, usages) && AllHealthy(after, profiles)
      && if exists p :: p in profiles && CapacityOf(usages, p).Some?
         then exists l :: after.leases == mid.leases + [l] && l.owner == e.req.owner && l.heartbeat == e.w.now
         else after.leases == mid.leases
  {
    ReserveKeepsHealthy(mid, policy, profiles, usages, e.req, e.w);
    if Reserve(mid, policy, profiles, usages, e.req, e.w).1.Reserved? {
      GrantedStepIsFair(policy, mid, profiles, usages, e.req, e.w);
    } else {
      forall p | p in profiles ensures CapacityOf(usages, p).None? {
        if CapacityOf(usages, p).Some? {
          UnroutedReserveHasNoGain(mid, policy, profiles, usages, e.req, e.w, p);
        }
      }
    }
  }

  lemma GrantedStepIsFair(
    policy: PoolPolicy, mid: PoolState, profiles: seq<string>, usages: map<string, AccountUsage>, req: ReserveRequest,
    w: World)
    requires Fair(mid.leases, profiles, usages) && AllHealthy(Prune(mid, policy, w), profiles) && !req.Routed()
    requires LiveLeases(mid.leases, policy, w) == mid.leases
    requires Reserve(mid, policy, profiles, usages, req, w).1.Reserved?
    ensures var (after, r) := Reserve(mid, policy, profiles, usages, req, w);
      && Fair(after.leases, profiles, usages) && after.leases == mid.leases + [r.lease]
      && r.lease.profile in profiles && CapacityOf(usages, r.lease.profile).Some?
      && r.lease.owner == req.owner && r.lease.heartbeat == w.now
  {
    ReserveGrants(mid, policy, profiles, usages, req, w);
    GrantGainsNowhere(policy, mid, profiles, usages, req, w);
    GreedyStepKeepsFair(mid.leases, Reserve(mid, policy, profiles, usages, req, w).1.lease, profiles, usages);
  }

  lemma GrantGainsNowhere(
    policy: PoolPolicy, mid: PoolState, profiles: seq<string>, usages: map<string, AccountUsage>, req: ReserveRequest,
    w: World)
    requires AllHealthy(Prune(mid, policy, w), profiles) && !req.Routed()
    requires Reserve(mid, policy, profiles, usages, req, w).1.Reserved?
    ensures var p := Reserve(mid, policy, profiles, usages, req, w).1.lease.profile;
      GainsNowhere(LiveLeases(mid.leases, policy, w), p, profiles, usages)
  {
    ReserveGrants(mid, policy, profiles, usages, req, w);
    var p, live := Reserve(mid, policy, profiles, usages, req, w).1.lease.profile, LiveLeases(mid.leases, policy, w);
    forall q | q in profiles && CapacityOf(usages, q).Some?
      ensures NoGain(Quota(usages, p), LeaseCount(live, p) + 1, Quota(usages, q), LeaseCount(live, q))
    {
      UnroutedReserveHasNoGain(mid, policy, profiles, usages, req, w, q);
    }
  }

  // ---------------------------------------------------------------- optimality

  function Total(names: seq<string>, split: string -> nat): nat {
    if names == [] then 0 else split(names[0]) + Total(names[1..], split)
  }

  predicate Distinct(names: seq<string>) {
    forall i, j :: 0 <= i < j < |names| ==> names[i] != names[j]
  }

  /** The accounts with usable quota, in order. */
  function WithQuota(profiles: seq<string>, usages: map<string, AccountUsage>): (r: seq<string>)
    ensures forall p :: p in r <==> p in profiles && CapacityOf(usages, p).Some?
    ensures Distinct(profiles) ==> Distinct(r)
  {
    if profiles == [] then []
    else
      var rest := WithQuota(profiles[1..], usages);
      if CapacityOf(usages, profiles[0]).Some? then [profiles[0]] + rest else rest
  }

  lemma {:induction false} TotalCongruent(names: seq<string>, f: string -> nat, g: string -> nat)
    requires forall n :: n in names ==> f(n) == g(n)
    ensures Total(names, f) == Total(names, g)
  {
    if names != [] {
      TotalCongruent(names[1..], f, g);
    }
  }

  lemma {:induction false} TotalBump(names: seq<string>, f: string -> nat, g: string -> nat, p: string)
    requires Distinct(names) && p in names
    requires forall n :: n in names ==> g(n) == f(n) + if n == p then 1 else 0
    ensures Total(names, g) == Total(names, f) + 1
  {
    if names[0] == p {
      TotalCongruent(names[1..], f, g);
    } else {
      TotalBump(names[1..], f, g, p);
    }
  }

  lemma {:induction false} TotalZero(names: seq<string>, f: string -> nat)
    requires forall n :: n in names ==> f(n) == 0
    ensures Total(names, f) == 0
  {
    if names != [] {
      TotalZero(names[1..], f);
    }
  }

  lemma {:induction false} CountsAddUp(leases: seq<PoolLease>, names: seq<string>)
    requires Distinct(names)
    requires forall l :: l in leases ==> l.profile in names
    ensures Total(names, p => LeaseCount(leases, p)) == |leases|
  {
    if leases == [] {
      TotalZero(names, p => LeaseCount(leases, p));
    } else {
      var front := leases[..|leases| - 1];
      CountsAddUp(front, names);
      TotalBump(names, p => LeaseCount(front, p), p => LeaseCount(leases, p), leases[|leases| - 1].profile);
    }
  }

  lemma {:induction false} SmallerSplitSmallerTotal(names: seq<string>, f: string -> nat, g: string -> nat)
    requires forall n :: n in names ==> f(n) <= g(n)
    ensures Total(names, f) <= Total(names, g)
    ensures (exists n :: n in names && f(n) < g(n)) ==> Total(names, f) < Total(names, g)
  {
    if names != [] {
      SmallerSplitSmallerTotal(names[1..], f, g);
    }
  }

  /** A split with the same total that gives p less gives some other account more. */
  lemma SomeoneGetsMore(names: seq<string>, f: string -> nat, g: string -> nat, p: string) returns (q: string)
    requires Total(names, f) == Total(names, g)
    requires p in names && f(p) < g(p)
    ensures q in names && g(q) < f(q)
  {
    if forall n :: n in names ==> f(n) <= g(n) {
      SmallerSplitSmallerTotal(names, f, g);
      assert false;
    } else {
      q :| q in names && g(q) < f(q);
    }
  }

  /** Every lease gets at least `bound` percent of its account's remaining quota. */
  predicate Guarantees(bound: real, names: seq<string>, usages: map<string, AccountUsage>, split: string -> nat)
    requires forall p :: p in names ==> CapacityOf(usages, p).Some?
  {
    forall p :: p in names && split(p) > 0 ==> Quota(usages, p) / split(p) as real >= bound
  }

  lemma FairIsOptimal(
    leases: seq<PoolLease>, profiles: seq<string>, usages: map<string, AccountUsage>, other: string -> nat, bound: real)
    requires Distinct(profiles) && Fair(leases, profiles, usages)
    requires Total(WithQuota(profiles, usages), other) == |leases|
    requires Guarantees(bound, WithQuota(profiles, usages), usages, other)
    ensures Guarantees(bound, WithQuota(profiles, usages), usages, p => LeaseCount(leases, p))
  {
    var names := WithQuota(profiles, usages);
    var mine := p => LeaseCount(leases, p);
    CountsAddUp(leases, names);
    forall p | p in names && mine(p) > 0
      ensures Quota(usages, p) / mine(p) as real >= bound
    {
      var q := p;
      if other(p) < mine(p) {
        q := SomeoneGetsMore(names, other, mine, p);
      }
      NoGainBoundsShare(Quota(usages, p), mine(p), Quota(usages, q), mine(q), other(q), q == p);
    }
  }

  /** If q got more leases in the other split, its share there is no better than p's share here. */
  lemma NoGainBoundsShare(a: real, m: nat, b: real, n: nat, other: nat, same: bool)
    requires a > 0.0 && m > 0 && NoGain(a, m, b, n)
    requires if same then a == b && other >= m else other > n
    ensures other > 0 && a / m as real >= b / other as real
  {
    var x, y := m as real, other as real;
    assert a * y >= b * x by {
      if same {
        assert a * (y - x) >= 0.0;
      } else {
        assert y >= (n + 1) as real;
        assert a * (y - (n + 1) as real) >= 0.0;
      }
    }
    DivisionOrder(a, x, b, y);
  }

  lemma DivisionOrder(a: real, n: real, b: real, m: real)
    requires n > 0.0 && m > 0.0 && a * m >= b * n
    ensures a / n >= b / m
  {
    var x, y := a / n, b / m;
    assert a == x * n && b == y * m;
    assert x * (n * m) >= y * (n * m);
    assert n * m > 0.0;
  }

  /**
   * Max-min fairness over runs. Whatever bound another placement of as many leases over the accounts with
   * quota guarantees to each lease, the pool's own placement guarantees too.
   */
  lemma MaxMinFair(
    policy: PoolPolicy, st: PoolState, es: seq<PoolEvent>, profiles: seq<string>, usages: map<string, AccountUsage>,
    other: string -> nat, bound: real)
    requires st.leases == [] && AllHealthy(st, profiles) && Distinct(profiles)
    requires SpreadRun(es, policy, profiles, usages)
    requires Total(WithQuota(profiles, usages), other) == |Run(policy, st, es).leases|
    requires Guarantees(bound, WithQuota(profiles, usages), usages, other)
    ensures Guarantees(bound, WithQuota(profiles, usages), usages, p => LeaseCount(Run(policy, st, es).leases, p))
  {
    SpreadIsFair(policy, st, es, profiles, usages);
    FairIsOptimal(Run(policy, st, es).leases, profiles, usages, other, bound);
  }
}
