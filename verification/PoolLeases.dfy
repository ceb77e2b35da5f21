/** How long a lease stays in the pool: over any run, until it is released, or its owner has died or fallen silent. */
module PoolLeases {
  import opened AccountUsages
  import opened Pool

  // ---------------------------------------------------------------- ids

  predicate DistinctIds(leases: seq<PoolLease>) {
    forall i, j :: 0 <= i < j < |leases| ==> leases[i].id != leases[j].id
  }

  /** Every lease has an id of its own, and the next one is unused. */
  predicate Numbered(st: PoolState) {
    DistinctIds(st.leases) && forall l :: l in st.leases ==> l.id < st.nextId
  }

  lemma {:induction false} LiveAreDistinct(leases: seq<PoolLease>, policy: PoolPolicy, w: World)
    requires DistinctIds(leases)
    ensures DistinctIds(LiveLeases(leases, policy, w))
  {
    if leases != [] {
      var front := leases[..|leases| - 1];
      LiveAreDistinct(front, policy, w);
      assert forall l :: l in front ==> l.id != leases[|leases| - 1].id;
    }
  }

  lemma {:induction false} WithoutAreDistinct(leases: seq<PoolLease>, id: nat)
    requires DistinctIds(leases)
    ensures DistinctIds(WithoutLease(leases, id))
  {
    if leases != [] {
      var front := leases[..|leases| - 1];
      WithoutAreDistinct(front, id);
      assert forall l :: l in front ==> l.id != leases[|leases| - 1].id;
    }
  }

  lemma {:induction false} BeatIs(leases: seq<PoolLease>, id: nat, now: real)
    requires DistinctIds(leases)
    ensures var r := Beat(leases, id, now);
      && |r| == |leases|
      && forall i :: 0 <= i < |r| ==> r[i] == if leases[i].id == id then leases[i].(heartbeat := now) else leases[i]
  {
    if leases != [] {
      BeatIs(leases[1..], id, now);
    }
  }

  lemma OneMoreIsDistinct(leases: seq<PoolLease>, l: PoolLease)
    requires DistinctIds(leases) && forall m :: m in leases ==> m.id < l.id
    ensures DistinctIds(leases + [l])
  {
  }

  lemma ReserveKeepsNumbered(
    st: PoolState, policy: PoolPolicy, profiles: seq<string>, usages: map<string, AccountUsage>, req: ReserveRequest,
    w: World)
    requires Numbered(st)
    ensures Numbered(Reserve(st, policy, profiles, usages, req, w).0)
  {
    var r, live := Reserve(st, policy, profiles, usages, req, w).1, LiveLeases(st.leases, policy, w);
    ReserveLeases(st, policy, profiles, usages, req, w);
    LiveAreDistinct(st.leases, policy, w);
    if r.Reserved? {
      OneMoreIsDistinct(live, r.lease);
    }
  }

  lemma StepKeepsNumbered(policy: PoolPolicy, st: PoolState, e: PoolEvent)
    requires Numbered(st)
    ensures Numbered(Apply(policy, st, e))
  {
    match e
    case EvReserve(profiles, usages, req, w) => ReserveKeepsNumbered(st, policy, profiles, usages, req, w);
    case EvHeartbeat(id, w) => BeatIs(st.leases, id, w.now);
    case EvRelease(id, _) => WithoutAreDistinct(st.leases, id);
    case _ =>
  }

  lemma {:induction false} RunKeepsNumbered(policy: PoolPolicy, st: PoolState, es: seq<PoolEvent>)
    requires Numbered(st)
    ensures Numbered(Run(policy, st, es))
  {
    if es != [] {
      RunKeepsNumbered(policy, st, es[..|es| - 1]);
      StepKeepsNumbered(policy, Run(policy, st, es[..|es| - 1]), es[|es| - 1]);
    }
  }

  // ---------------------------------------------------------------- how long a lease stays

  predicate InPool(st: PoolState, id: nat) {
    exists l :: l in st.leases && l.id == id
  }

  /** When the lease was last heard of. */
  function LastBeat(es: seq<PoolEvent>, l: PoolLease): real {
    if es == [] then l.heartbeat
    else if es[|es| - 1].EvHeartbeat? && es[|es| - 1].id == l.id then es[|es| - 1].w.now
    else LastBeat(es[..|es| - 1], l)
  }

  /** The process of the owner is alive. */
  predicate OwnerLives(owner: Owner, alive: set<int>) {
    match owner
    case Pid(pid) => pid >= 1 && pid in alive
    case OtherOwner(_) => false
  }

  /** The step releases the lease, or grants a request when its owner is dead or it has been silent for too long. */
  predicate Drops(policy: PoolPolicy, st: PoolState, e: PoolEvent, l: PoolLease, beat: real) {
    match e
    case EvRelease(id, _) => id == l.id
    case EvReserve(profiles, usages, req, w) =>
      && Reserve(st, policy, profiles, usages, req, w).1.Reserved?
      && (!OwnerLives(l.owner, w.alive) || w.now > beat + policy.staleLeaseSeconds)
    case _ => false
  }

  predicate NeverDropped(policy: PoolPolicy, st: PoolState, es: seq<PoolEvent>, l: PoolLease) {
    es == [] ||
    (var front, e := es[..|es| - 1], es[|es| - 1];
     NeverDropped(policy, st, front, l) && !Drops(policy, Run(policy, st, front), e, l, LastBeat(front, l)))
  }

  lemma ReserveDrops(
    policy: PoolPolicy, st: PoolState, profiles: seq<string>, usages: map<string, AccountUsage>, req: ReserveRequest,
    w: World, l: PoolLease)
    requires Numbered(st) && l in st.leases
    ensures var after := Reserve(st, policy, profiles, usages, req, w).0;
      if Drops(policy, st, EvReserve(profiles, usages, req, w), l, l.heartbeat) then !InPool(after, l.id)
      else l in after.leases
  {
    ReserveLeases(st, policy, profiles, usages, req, w);
    forall m | m in st.leases && m.id == l.id ensures m == l {
      SameIdSameLease(st, m, l);
    }
  }

  lemma SameIdSameLease(st: PoolState, a: PoolLease, b: PoolLease)
    requires Numbered(st) && a in st.leases && b in st.leases && a.id == b.id
    ensures a == b
  {
  }

  lemma StepDrops(policy: PoolPolicy, st: PoolState, e: PoolEvent, l: PoolLease)
    requires Numbered(st) && l in st.leases
    ensures var after := Apply(policy, st, e);
      if Drops(policy, st, e, l, l.heartbeat) then !InPool(after, l.id)
      else l.(heartbeat := if e.EvHeartbeat? && e.id == l.id then e.w.now else l.heartbeat) in after.leases
  {
    match e
    case EvHeartbeat(id, w) =>
      var i :| 0 <= i < |st.leases| && st.leases[i] == l;
      BeatIs(st.leases, id, w.now);
      assert Apply(policy, st, e).leases[i] == if l.id == id then l.(heartbeat := w.now) else l;
    case EvReserve(profiles, usages, req, w) => ReserveDrops(policy, st, profiles, usages, req, w, l);
    case _ =>
  }

  lemma ReserveLeases(
    st: PoolState, policy: PoolPolicy, profiles: seq<string>, usages: map<string, AccountUsage>, req: ReserveRequest,
    w: World)
    ensures var (after, r) := Reserve(st, policy, profiles, usages, req, w);
      && after.leases == (if r.Reserved? then LiveLeases(st.leases, policy, w) + [r.lease] else st.leases)
      && after.nextId == (if r.Reserved? then st.nextId + 1 else st.nextId)
      && (r.Reserved? ==> r.lease.id == st.nextId)
  {
  }

  lemma StepKeepsGone(policy: PoolPolicy, st: PoolState, e: PoolEvent, id: nat)
    requires Numbered(st) && !InPool(st, id) && id < st.nextId
    ensures !InPool(Apply(policy, st, e), id) && id < Apply(policy, st, e).nextId
  {
    match e
    case EvHeartbeat(i, w) => BeatIs(st.leases, i, w.now);
    case EvReserve(profiles, usages, req, w) => ReserveLeases(st, policy, profiles, usages, req, w);
    case _ =>
  }

  /** A lease of a run that never drops it is there as it was, but for its last heartbeat; and no other lease is. */
  predicate StaysAs(policy: PoolPolicy, st: PoolState, es: seq<PoolEvent>, l: PoolLease) {
    var after := Run(policy, st, es);
    if NeverDropped(policy, st, es, l) then l.(heartbeat := LastBeat(es, l)) in after.leases
    else !InPool(after, l.id) && l.id < after.nextId
  }

  lemma {:induction false} LeaseStays(policy: PoolPolicy, st: PoolState, es: seq<PoolEvent>, l: PoolLease)
    requires Numbered(st) && l in st.leases
    ensures StaysAs(policy, st, es, l)
  {
    if es != [] {
      var front, e := es[..|es| - 1], es[|es| - 1];
      var before := Run(policy, st, front);
      LeaseStays(policy, st, front, l);
      RunKeepsNumbered(policy, st, front);
      if NeverDropped(policy, st, front, l) {
        StepDrops(policy, before, e, l.(heartbeat := LastBeat(front, l)));
      } else {
        StepKeepsGone(policy, before, e, l.id);
      }
    }
  }

  /**
   * The life of a lease, from its grant on: it stays in the pool, whatever others do, if and only if it is not
   * released, and no request is granted while its owner is dead, or when it has been silent for longer than the
   * limit.
   */
  lemma GrantedLeaseStays(
    policy: PoolPolicy, st: PoolState, profiles: seq<string>, usages: map<string, AccountUsage>, req: ReserveRequest,
    w: World, es: seq<PoolEvent>)
    requires Numbered(st) && Reserve(st, policy, profiles, usages, req, w).1.Reserved?
    ensures var (after, r) := Reserve(st, policy, profiles, usages, req, w);
      && (InPool(Run(policy, after, es), r.lease.id) <==> NeverDropped(policy, after, es, r.lease))
      && r.lease.owner == req.owner && r.lease.heartbeat == w.now && r.lease.startedAt == w.now
      && r.lease.routeKey == req.routeKey
  {
    var (after, r) := Reserve(st, policy, profiles, usages, req, w);
    StepKeepsNumbered(policy, st, EvReserve(profiles, usages, req, w));
    ReserveLeases(st, policy, profiles, usages, req, w);
    assert after.leases[|after.leases| - 1] == r.lease;
    LeaseStays(policy, after, es, r.lease);
  }
}
