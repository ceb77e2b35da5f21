/** Leases are conserved: those the server has in the pool are those it holds, but for the ones pruned as stale. */
module LeaseLaw {
  // Between any two handled messages the server holds a lease for each pending request that needs one, and one for the
  // control backend. It sends no heartbeats, so a lease held for longer than a day is pruned by the next reservation
  // that anyone is granted.

  import opened Wrappers
  import opened Dicts
  import opened AccountUsages
  import opened Pool
  import opened PoolFairness
  import opened Router
  import opened Multiplexer
  import opened ReplyLaw

  // ---------------------------------------------------------------- ours and held

  /** The ids of the leases this process owns. */
  function Ours(leases: seq<PoolLease>, cfg: Config): multiset<nat> {
    if leases == [] then multiset{}
    else
      var last := leases[|leases| - 1];
      Ours(leases[..|leases| - 1], cfg) + if last.owner == Pid(cfg.pid) then multiset{last.id} else multiset{}
  }

  function Opt(lease: Option<nat>): multiset<nat> {
    if lease.Some? then multiset{lease.value} else multiset{}
  }

  function HeldBy(pending: Dict<Key, Pending>): multiset<nat> {
    if pending == [] then multiset{}
    else HeldBy(pending[..|pending| - 1]) + Opt(pending[|pending| - 1].1.lease)
  }

  function HeldByControl(s: Mux): multiset<nat> {
    if s.controlLease.Some? then multiset{s.controlLease.value.lease} else multiset{}
  }

  function Held(s: Mux): multiset<nat> {
    HeldBy(s.pending) + HeldByControl(s)
  }

  /** Lease ids in the file are distinct, and a new one will be too. */
  predicate LeaseIdsUnique(pool: PoolState) {
    DistinctIds(pool.leases) && forall l :: l in pool.leases ==> l.id < pool.nextId
  }

  /**
   * Our leases in the pool are those held and the extra ones a handler has in hand, each once, but for those gone.
   */
  ghost predicate Balanced(s: Mux, extra: multiset<nat>, gone: set<nat>, cfg: Config) {
    && (forall id :: Ours(s.pool.leases, cfg)[id] == if id in gone then 0 else Held(s)[id] + extra[id])
    && LeaseIdsUnique(s.pool) && forall id :: id in gone ==> id < s.pool.nextId
  }

  /** The server holds exactly the leases it has in the pool. */
  ghost predicate Conserved(s: Mux, cfg: Config) {
    Balanced(s, multiset{}, {}, cfg)
  }

  const NONE: multiset<nat> := multiset{}

  // ---------------------------------------------------------------- the pool operations

  predicate DistinctIds(leases: seq<PoolLease>) {
    forall i, j :: 0 <= i < j < |leases| ==> leases[i].id != leases[j].id
  }

  lemma {:induction false} OursAre(leases: seq<PoolLease>, cfg: Config)
    ensures forall id :: id in Ours(leases, cfg) ==> exists l :: l in leases && l.id == id
    ensures DistinctIds(leases) ==> forall id :: Ours(leases, cfg)[id] <= 1
  {
    if leases != [] {
      OursAre(leases[..|leases| - 1], cfg);
    }
  }

  lemma OursAppend(leases: seq<PoolLease>, l: PoolLease, cfg: Config)
    ensures Ours(leases + [l], cfg) == Ours(leases, cfg) + if l.owner == Pid(cfg.pid) then multiset{l.id}
      else multiset{}
  {
    assert (leases + [l])[..|leases|] == leases;
  }

  lemma {:induction false} WithoutDistinct(leases: seq<PoolLease>, id: nat)
    requires DistinctIds(leases)
    ensures DistinctIds(WithoutLease(leases, id))
  {
    if leases != [] {
      WithoutDistinct(leases[..|leases| - 1], id);
    }
  }

  lemma {:induction false} OursWithout(leases: seq<PoolLease>, id: nat, cfg: Config)
    ensures forall x :: Ours(WithoutLease(leases, id), cfg)[x] == if x == id then 0 else Ours(leases, cfg)[x]
  {
    if leases != [] {
      OursWithout(leases[..|leases| - 1], id, cfg);
      OursAppend(WithoutLease(leases[..|leases| - 1], id), leases[|leases| - 1], cfg);
    }
  }

  lemma ReleaseUnique(pool: PoolState, id: nat)
    requires LeaseIdsUnique(pool)
    ensures LeaseIdsUnique(Release(pool, id))
  {
    WithoutDistinct(pool.leases, id);
  }

  lemma FreedBalance(s: Mux, lease: Option<nat>, extra: multiset<nat>, gone: set<nat>, cfg: Config)
    requires Balanced(s, extra + Opt(lease), gone, cfg)
    ensures Balanced(Freed(s, lease), extra, gone, cfg) && Freed(s, lease).pool.nextId == s.pool.nextId
  {
    if lease.Some? {
      OursWithout(s.pool.leases, lease.value, cfg);
      OursAre(s.pool.leases, cfg);
      ReleaseUnique(s.pool, lease.value);
    }
  }

  lemma {:induction false} LiveDistinct(leases: seq<PoolLease>, policy: PoolPolicy, w: World)
    requires DistinctIds(leases)
    ensures DistinctIds(LiveLeases(leases, policy, w))
  {
    if leases != [] {
      var front, last := leases[..|leases| - 1], leases[|leases| - 1];
      LiveDistinct(front, policy, w);
      var r := LiveLeases(front, policy, w);
      forall i | 0 <= i < |r| ensures r[i].id != last.id {
        assert r[i] in front;
      }
    }
  }

  /** The leases of this server that a reservation would prune. */
  function StaleIds(leases: seq<PoolLease>, w: World, cfg: Config): set<nat> {
    set l | l in leases && l.owner == Pid(cfg.pid) && !LeaseLives(l, cfg.policy, w) :: l.id
  }

  lemma {:induction false} OursLive(leases: seq<PoolLease>, w: World, cfg: Config)
    requires DistinctIds(leases)
    ensures forall x ::
      Ours(LiveLeases(leases, cfg.policy, w), cfg)[x]
      == if x in StaleIds(leases, w, cfg) then 0 else Ours(leases, cfg)[x]
  {
    if leases != [] {
      var front, last := leases[..|leases| - 1], leases[|leases| - 1];
      OursLive(front, w, cfg);
      OursLiveLast(front, last, w, cfg);
      assert front + [last] == leases;
    }
  }

  lemma OursLiveLast(front: seq<PoolLease>, last: PoolLease, w: World, cfg: Config)
    requires DistinctIds(front + [last])
    requires forall x ::
      Ours(LiveLeases(front, cfg.policy, w), cfg)[x]
      == if x in StaleIds(front, w, cfg) then 0 else Ours(front, cfg)[x]
    ensures forall x ::
      Ours(LiveLeases(front + [last], cfg.policy, w), cfg)[x]
      == if x in StaleIds(front + [last], w, cfg) then 0 else Ours(front + [last], cfg)[x]
  {
    assert (front + [last])[..|front|] == front;
    OursAppend(LiveLeases(front, cfg.policy, w), last, cfg);
    OursAppend(front, last, cfg);
    NotOurs(front, last, cfg);
    StaleLonger(front, last, w, cfg);
  }

  lemma NotOurs(front: seq<PoolLease>, last: PoolLease, cfg: Config)
    requires DistinctIds(front + [last])
    ensures Ours(front, cfg)[last.id] == 0
  {
    OursAre(front, cfg);
    forall l | l in front ensures l.id != last.id {
      var i :| 0 <= i < |front| && front[i] == l;
      assert (front + [last])[i] == l && (front + [last])[|front|] == last;
    }
  }

  lemma StaleLonger(front: seq<PoolLease>, last: PoolLease, w: World, cfg: Config)
    requires DistinctIds(front + [last])
    ensures StaleIds(front + [last], w, cfg) == StaleIds(front, w, cfg)
      + if last.owner == Pid(cfg.pid) && !LeaseLives(last, cfg.policy, w) then {last.id} else {}
    ensures last.id !in StaleIds(front, w, cfg)
  {
    var all := front + [last];
    assert forall l :: l in all <==> l in front || l == last;
    forall l | l in front ensures l.id != last.id {
      var i :| 0 <= i < |front| && front[i] == l;
      assert all[i] == l && all[|front|] == last;
    }
  }

  /** What is pruned when one pool file has become another: our stale leases, if a reservation was granted. */
  function PrunedBetween(before: PoolState, after: PoolState, w: World, cfg: Config): set<nat> {
    if after.nextId > before.nextId then StaleIds(before.leases, w, cfg) else {}
  }

  /** Our leases in the file are those of before, without the ones dropped and with the ones taken. */
  ghost predicate OursChange(before: PoolState, after: PoolState, w: World, cfg: Config, taken: multiset<nat>) {
    && LeaseIdsUnique(after) && after.nextId >= before.nextId
    && forall x ::
      Ours(after.leases, cfg)[x]
      == (if x in PrunedBetween(before, after, w, cfg) then 0 else Ours(before.leases, cfg)[x]) + taken[x]
  }

  lemma ReserveLeases(
    pool: PoolState, profiles: seq<string>, usages: map<string, AccountUsage>,
    req: ReserveRequest, w: World, cfg: Config)
    requires LeaseIdsUnique(pool)
    ensures var (after, r) := Reserve(pool, cfg.policy, profiles, usages, req, w);
      && after.nextId == pool.nextId + (if r.Reserved? then 1 else 0)
      && (r.Reserved? ==> r.lease.id == pool.nextId) && (!r.Reserved? ==> after == pool)
      && OursChange(
        pool, after, w, cfg, if r.Reserved? && req.owner == Pid(cfg.pid) then multiset{pool.nextId} else NONE)
  {
    var (after, r) := Reserve(pool, cfg.policy, profiles, usages, req, w);
    if r.Reserved? {
      ReserveGrants(pool, cfg.policy, profiles, usages, req, w);
      GrantChanges(pool, after, r.lease, w, cfg);
    }
  }

  lemma GrantChanges(pool: PoolState, after: PoolState, lease: PoolLease, w: World, cfg: Config)
    requires LeaseIdsUnique(pool) && lease.id == pool.nextId && after.nextId == pool.nextId + 1
    requires after.leases == LiveLeases(pool.leases, cfg.policy, w) + [lease]
    ensures OursChange(pool, after, w, cfg, if lease.owner == Pid(cfg.pid) then multiset{lease.id} else NONE)
  {
    var live := LiveLeases(pool.leases, cfg.policy, w);
    OursLive(pool.leases, w, cfg);
    OursAppend(live, lease, cfg);
    GrantUnique(pool, after, lease, w, cfg);
  }

  lemma GrantUnique(pool: PoolState, after: PoolState, lease: PoolLease, w: World, cfg: Config)
    requires LeaseIdsUnique(pool) && lease.id == pool.nextId && after.nextId == pool.nextId + 1
    requires after.leases == LiveLeases(pool.leases, cfg.policy, w) + [lease]
    ensures LeaseIdsUnique(after)
  {
    var live := LiveLeases(pool.leases, cfg.policy, w);
    LiveDistinct(pool.leases, cfg.policy, w);
    forall i | 0 <= i < |live| ensures live[i].id < pool.nextId {
      assert live[i] in live;
    }
  }

  // ---------------------------------------------------------------- losing a backend

  lemma HeldByAppend(pending: Dict<Key, Pending>, key: Key, e: Pending)
    ensures HeldBy(pending + [(key, e)]) == HeldBy(pending) + Opt(e.lease)
  {
    assert (pending + [(key, e)])[..|pending|] == pending;
  }

  lemma {:induction false} HeldByPop(pending: Dict<Key, Pending>, key: Key)
    ensures HeldBy(pending) == HeldBy(Pop(pending, key)) + Opt(LeaseOf(Get(pending, key)))
  {
    if pending != [] && pending[|pending| - 1].0 != key {
      HeldByPop(pending[..|pending| - 1], key);
      HeldByAppend(Pop(pending[..|pending| - 1], key), pending[|pending| - 1].0, pending[|pending| - 1].1);
    }
  }

  lemma {:induction false} FailPendingFrees(pending: Dict<Key, Pending>, p: string)
    ensures var (kept, _, freed) := FailPending(pending, p); HeldBy(pending) == HeldBy(kept) + multiset(freed)
  {
    if pending != [] {
      FailPendingFrees(pending[..|pending| - 1], p);
      var (kept, _, freed) := FailPending(pending[..|pending| - 1], p);
      var (key, entry) := pending[|pending| - 1];
      HeldByAppend(kept, key, entry);
    }
  }

  /** What is held and what is in hand may change places. */
  lemma BalanceMoves(s: Mux, t: Mux, extra: multiset<nat>, extra': multiset<nat>, gone: set<nat>, cfg: Config)
    requires Balanced(s, extra, gone, cfg) && Held(s) + extra == Held(t) + extra'
    requires t.pool.leases == s.pool.leases && t.pool.nextId == s.pool.nextId
    ensures Balanced(t, extra', gone, cfg)
  {
    forall id ensures Held(s)[id] + extra[id] == Held(t)[id] + extra'[id] {
      assert (Held(s) + extra)[id] == (Held(t) + extra')[id];
    }
  }

  /** Balance looks at the leases, the pending requests and the control lease only. */
  lemma SameBalance(s: Mux, t: Mux, extra: multiset<nat>, gone: set<nat>, cfg: Config)
    requires Balanced(s, extra, gone, cfg)
    requires t.pending == s.pending && t.controlLease == s.controlLease
    requires t.pool.leases == s.pool.leases && t.pool.nextId == s.pool.nextId
    ensures Balanced(t, extra, gone, cfg)
  {
    BalanceMoves(s, t, extra, extra, gone, cfg);
  }

  lemma FreedLast(extra: multiset<nat>, freed: seq<nat>)
    requires freed != []
    ensures extra + multiset(freed)
      == (extra + Opt(Some(freed[|freed| - 1]))) + multiset(freed[..|freed| - 1])
  {
    assert freed == freed[..|freed| - 1] + [freed[|freed| - 1]];
  }

  lemma {:induction false} ReleaseAllBalance(
    s: Mux, freed: seq<nat>, extra: multiset<nat>, gone: set<nat>, cfg: Config)
    requires Balanced(s, extra + multiset(freed), gone, cfg)
    ensures Balanced(s.(pool := ReleaseAll(s.pool, freed)), extra, gone, cfg)
    ensures ReleaseAll(s.pool, freed).nextId == s.pool.nextId
  {
    if freed == [] {
      assert extra + multiset(freed) == extra;
    } else {
      var front, last := freed[..|freed| - 1], Some(freed[|freed| - 1]);
      FreedLast(extra, freed);
      ReleaseAllBalance(s, front, extra + Opt(last), gone, cfg);
      FreedBalance(s.(pool := ReleaseAll(s.pool, front)), last, extra, gone, cfg);
    }
  }

  lemma FailBackendHolds(s: Mux, p: string, extra: multiset<nat>)
    ensures var (kept, _, freed) := FailPending(s.pending, p);
      Held(s) + extra == Held(s.(pending := kept)) + (extra + multiset(freed))
  {
    FailPendingFrees(s.pending, p);
  }

  lemma FailBackendBalance(s: Mux, p: string, extra: multiset<nat>, gone: set<nat>, cfg: Config)
    requires Balanced(s, extra, gone, cfg)
    ensures Balanced(FailBackend(s, p), extra, gone, cfg) && FailBackend(s, p).pool.nextId == s.pool.nextId
  {
    var (kept, _, freed) := FailPending(s.pending, p);
    var s1 := s.(pending := kept);
    FailBackendHolds(s, p, extra);
    BalanceMoves(s, s1, extra, extra + multiset(freed), gone, cfg);
    ReleaseAllBalance(s1, freed, extra, gone, cfg);
    SameBalance(s1.(pool := ReleaseAll(s1.pool, freed)), FailBackend(s, p), extra, gone, cfg);
  }

  function ControlFreed(s: Mux): Mux {
    if s.controlLease.Some? then Freed(s, Some(s.controlLease.value.lease)).(controlLease := None) else s
  }

  lemma ControlFreedBalance(s: Mux, extra: multiset<nat>, gone: set<nat>, cfg: Config)
    requires Balanced(s, extra, gone, cfg)
    ensures Balanced(ControlFreed(s), extra, gone, cfg) && ControlFreed(s).pool.nextId == s.pool.nextId
  {
    if s.controlLease.Some? {
      var lease := s.controlLease.value.lease;
      var s1 := s.(controlLease := None);
      assert Held(s) == Held(s1) + multiset{lease};
      assert Balanced(s1, extra + Opt(Some(lease)), gone, cfg);
      FreedBalance(s1, Some(lease), extra, gone, cfg);
      assert Freed(s1, Some(lease)) == ControlFreed(s);
    }
  }

  lemma RetireBalance(s: Mux, p: string, w: World, cfg: Config, extra: multiset<nat>, gone: set<nat>)
    requires Balanced(s, extra, gone, cfg)
    ensures Balanced(Retire(s, p, w, cfg), extra, gone, cfg) && Retire(s, p, w, cfg).pool.nextId == s.pool.nextId
  {
    if Has(s.backends, p) {
      var s1 := s.(backends := Pop(s.backends, p));
      SameBalance(s, s1, extra, gone, cfg);
      ControlFreedBalance(s1, extra, gone, cfg);
      var s2 := if s1.routes.control == Some(p) && s1.controlLease.Some? then ControlFreed(s1) else s1;
      var s3 := s2.(pool := MarkFailure(s2.pool, cfg.policy, p, "process", None, w));
      SameBalance(s2, s3, extra, gone, cfg);
      FailBackendBalance(s3, p, extra, gone, cfg);
    }
  }

  // ---------------------------------------------------------------- reaching a backend

  lemma EnsureBalance(s: Mux, p: string, starts: bool, w: World, cfg: Config, extra: multiset<nat>, gone: set<nat>)
    requires Balanced(s, extra, gone, cfg)
    ensures var t := Ensure(s, p, starts, w, cfg).0;
      Balanced(t, extra, gone, cfg) && t.pool.nextId == s.pool.nextId
  {
    RetireBalance(s, p, w, cfg, extra, gone);
    var s1 := Retire(s, p, w, cfg);
    SameBalance(s1, s1.(backends := Put(s1.backends, p, true)), extra, gone, cfg);
  }

  function LeaseId(lease: Option<PoolLease>): Option<nat> {
    if lease.Some? then Some(lease.value.id) else None
  }

  /** Taking a lease puts it in hand, and prunes what is stale. */
  lemma TakeBalance(
    s: Mux, routeKey: Option<string>, migrate: bool, luck: Luck, w: World, cfg: Config, extra: multiset<nat>,
    gone: set<nat>)
    requires Balanced(s, extra, gone, cfg)
    ensures var (t, lease) := Take(s, routeKey, migrate, luck, w, cfg);
      && Balanced(t, extra + Opt(LeaseId(lease)), gone + PrunedBetween(s.pool, t.pool, w, cfg), cfg)
      && (if lease.Some? then lease.value.id == s.pool.nextId && t.pool.nextId == s.pool.nextId + 1 else t == s)
  {
    if luck.fetch.Some? {
      var fetch, req := luck.fetch.value, SelectRequest(routeKey, migrate, cfg);
      ReserveLeases(s.pool, fetch.profiles, fetch.usages, req, w, cfg);
      var (pool, r) := Reserve(s.pool, cfg.policy, fetch.profiles, fetch.usages, req, w);
      if r.Reserved? {
        PoolChanges(s, pool, w, multiset{s.pool.nextId}, extra, gone, cfg);
      }
    }
  }

  lemma PoolChanges(
    s: Mux, pool: PoolState, w: World, taken: multiset<nat>, extra: multiset<nat>, gone: set<nat>, cfg: Config)
    requires Balanced(s, extra, gone, cfg) && OursChange(s.pool, pool, w, cfg, taken)
    requires forall x :: x in taken ==> x >= s.pool.nextId
    ensures Balanced(s.(pool := pool), extra + taken, gone + PrunedBetween(s.pool, pool, w, cfg), cfg)
  {
    assert Held(s.(pool := pool)) == Held(s);
    StaleAreOld(s.pool, w, cfg);
  }

  lemma StaleAreOld(pool: PoolState, w: World, cfg: Config)
    requires LeaseIdsUnique(pool)
    ensures forall id :: id in StaleIds(pool.leases, w, cfg) ==> id < pool.nextId
  {
  }

  /** A backend that comes up leaves the new lease in hand; one that does not gives it back. */
  lemma AdmitBalance(
    s: Mux, lease: PoolLease, starts: bool, w: World, cfg: Config, extra: multiset<nat>, gone: set<nat>)
    requires Balanced(s, extra + Opt(Some(lease.id)), gone, cfg)
    ensures var (t, kept) := Admit(s, lease, starts, w, cfg);
      && Balanced(t, extra + Opt(LeaseId(kept)), gone, cfg) && t.pool.nextId == s.pool.nextId
      && (kept.Some? ==> kept.value == lease)
  {
    EnsureBalance(s, lease.profile, starts, w, cfg, extra + Opt(Some(lease.id)), gone);
    var (t, up) := Ensure(s, lease.profile, starts, w, cfg);
    if !up {
      FreedBalance(t, Some(lease.id), extra, gone, cfg);
      assert extra + Opt(None) == extra;
    }
  }

  lemma SelectBalance(
    s: Mux, routeKey: Option<string>, migrate: bool, luck: Luck, w: World, cfg: Config, extra: multiset<nat>,
    gone: set<nat>)
    requires Balanced(s, extra, gone, cfg)
    ensures var (t, lease) := Select(s, routeKey, migrate, luck, w, cfg);
      && Balanced(t, extra + Opt(LeaseId(lease)), gone + PrunedBetween(s.pool, t.pool, w, cfg), cfg)
      && (lease.Some? ==> lease.value.id == s.pool.nextId)
  {
    TakeBalance(s, routeKey, migrate, luck, w, cfg, extra, gone);
    var (s1, lease) := Take(s, routeKey, migrate, luck, w, cfg);
    if lease.Some? {
      AdmitBalance(s1, lease.value, luck.starts, w, cfg, extra, gone + PrunedBetween(s.pool, s1.pool, w, cfg));
    }
  }

  lemma ReachBalance(s: Mux, p: string, luck: Luck, w: World, cfg: Config, extra: multiset<nat>, gone: set<nat>)
    requires Balanced(s, extra, gone, cfg)
    ensures var t := Reach(s, p, luck, w, cfg).0;
      Balanced(t, extra, gone, cfg) && t.pool.nextId == s.pool.nextId
  {
    SameBalance(s, Died(s, p), extra, gone, cfg);
    EnsureBalance(if luck.dies then Died(s, p) else s, p, luck.restarts, w, cfg, extra, gone);
  }

  lemma TrackedHolds(s: Mux, p: string, id: Id, lease: Option<nat>)
    requires Fresh(s, id)
    ensures Held(Tracked(s, p, id, lease)) == Held(s) + Opt(lease)
    ensures Untracked(Tracked(s, p, id, lease), p, id) == s
  {
    TrackedAdds(s, p, id, lease, id);
    assert Get(s.pending, MessageKey(p, id)).None?;
    HeldByAppend(s.pending, MessageKey(p, id), Pending(id, lease));
  }

  lemma TrackedBalance(s: Mux, p: string, id: Id, lease: Option<nat>, cfg: Config, gone: set<nat>)
    requires Balanced(s, Opt(lease), gone, cfg) && Fresh(s, id)
    ensures Balanced(Tracked(s, p, id, lease), NONE, gone, cfg)
    ensures Untracked(Tracked(s, p, id, lease), p, id) == s
  {
    TrackedHolds(s, p, id, lease);
    BalanceMoves(s, Tracked(s, p, id, lease), Opt(lease), NONE, gone, cfg);
  }

  lemma UnwrittenBalance(s: Mux, p: string, lease: Option<nat>, w: World, cfg: Config, gone: set<nat>)
    requires Balanced(s, Opt(lease), gone, cfg)
    ensures var t := Retire(Freed(s, lease), p, w, cfg);
      Balanced(t, NONE, gone, cfg) && t.pool.nextId == s.pool.nextId
  {
    assert NONE + Opt(lease) == Opt(lease);
    FreedBalance(s, lease, NONE, gone, cfg);
    RetireBalance(Freed(s, lease), p, w, cfg, NONE, gone);
  }

  lemma WriteBalance(
    s: Mux, p: string, id: Id, lease: Option<nat>, track: bool, luck: Luck, w: World, cfg: Config, gone: set<nat>)
    requires Balanced(s, Opt(lease), gone, cfg) && (track && id != IdNull ==> Fresh(s, id))
    ensures var t := Write(s, p, id, lease, track, luck, w, cfg).0;
      && Balanced(t, if luck.written && !(track && id != IdNull) then Opt(lease) else NONE, gone, cfg)
      && t.pool.nextId == s.pool.nextId
  {
    if track && id != IdNull {
      TrackedBalance(s, p, id, lease, cfg, gone);
    }
    UnwrittenBalance(s, p, lease, w, cfg, gone);
  }

  /**
   * When a lease in hand is lost for good: the process died after it was chosen and does not come back, or the
   * message was written but has no id under which the lease could be kept.
   */
  predicate SendLoses(s: Mux, p: string, id: Id, luck: Luck, w: World, cfg: Config) {
    !Reach(s, p, luck, w, cfg).1 || (luck.written && id == IdNull)
  }

  lemma SendBalance(
    s: Mux, p: string, id: Id, lease: Option<nat>, track: bool, luck: Luck, w: World, cfg: Config, gone: set<nat>)
    requires Balanced(s, Opt(lease), gone, cfg) && (track && id != IdNull ==> Fresh(s, id)) && (track || lease.None?)
    ensures var t := Send(s, p, id, lease, track, luck, w, cfg).0;
      && Balanced(t, if SendLoses(s, p, id, luck, w, cfg) then Opt(lease) else NONE, gone, cfg)
      && t.pool.nextId == s.pool.nextId
  {
    ReachBalance(s, p, luck, w, cfg, Opt(lease), gone);
    var (s1, up) := Reach(s, p, luck, w, cfg);
    if up {
      if track && id != IdNull {
        ReachKeepsFresh(s, p, luck, w, cfg, id);
      }
      WriteBalance(s1, p, id, lease, track, luck, w, cfg, gone);
    }
  }

  // ---------------------------------------------------------------- client messages

  /** What a message leaves: one lease too many if it loses one, and too few by those gone and those it has pruned. */
  ghost predicate Leaves(s: Mux, t: Mux, loses: bool, w: World, cfg: Config, gone: set<nat>) {
    Balanced(
      t, if loses then multiset{s.pool.nextId} else NONE, gone + PrunedBetween(s.pool, t.pool, w, cfg), cfg)
  }

  lemma LeavesAll(s: Mux, t: Mux, w: World, cfg: Config, gone: set<nat>)
    requires Balanced(t, NONE, gone, cfg) && t.pool.nextId == s.pool.nextId
    ensures Leaves(s, t, false, w, cfg, gone)
  {
    assert gone + {} == gone;
  }

  lemma StaleWithout(leases: seq<PoolLease>, id: nat, w: World, cfg: Config)
    requires DistinctIds(leases)
    ensures StaleIds(WithoutLease(leases, id), w, cfg) == StaleIds(leases, w, cfg) - {id}
  {
  }

  /** An id that is not in the pool counts as gone. */
  lemma AlsoGone(s: Mux, id: nat, extra: multiset<nat>, gone: set<nat>, cfg: Config)
    requires Balanced(s, extra, gone, cfg) && id < s.pool.nextId && Ours(s.pool.leases, cfg)[id] == 0
    ensures Balanced(s, extra, gone + {id}, cfg)
  {
  }

  /** The control lease is given up before the reservation, so it is not pruned even if it is stale. */
  lemma GivenUpStale(s: Mux, w: World, cfg: Config, gone: set<nat>) returns (more: set<nat>)
    requires Balanced(s, NONE, gone, cfg)
    ensures Balanced(ControlFreed(s), NONE, gone + more, cfg)
    ensures more + StaleIds(ControlFreed(s).pool.leases, w, cfg) == StaleIds(s.pool.leases, w, cfg)
  {
    ControlFreedBalance(s, NONE, gone, cfg);
    var t := ControlFreed(s);
    more := {};
    if s.controlLease.Some? {
      var id := s.controlLease.value.lease;
      StaleWithout(s.pool.leases, id, w, cfg);
      if id in StaleIds(s.pool.leases, w, cfg) {
        more := {id};
        OursWithout(s.pool.leases, id, cfg);
        AlsoGone(t, id, NONE, gone, cfg);
      }
    }
    assert gone + {} == gone;
  }

  lemma FreedForReserve(s: Mux, pool: PoolState, w: World, cfg: Config, gone: set<nat>) returns (gone': set<nat>)
    requires Balanced(s, NONE, gone, cfg)
    ensures Balanced(ControlFreed(s), NONE, gone', cfg)
    ensures gone' + PrunedBetween(ControlFreed(s).pool, pool, w, cfg) == gone + PrunedBetween(s.pool, pool, w, cfg)
  {
    ControlFreedBalance(s, NONE, gone, cfg);
    gone' := gone;
    if pool.nextId > s.pool.nextId {
      var more := GivenUpStale(s, w, cfg, gone);
      gone' := gone + more;
    }
  }

  lemma MoveControlSelects(s: Mux, luck: Luck, w: World, cfg: Config, gone: set<nat>)
    requires Balanced(s, NONE, gone, cfg)
    ensures var (t, lease) := Select(ControlFreed(s), Some(CONTROL_KEY), s.routes.control.Some?, luck, w, cfg);
      Balanced(t, Opt(LeaseId(lease)), gone + PrunedBetween(s.pool, t.pool, w, cfg), cfg) && t.controlLease.None?
  {
    var key, moved, s1 := Some(CONTROL_KEY), s.routes.control.Some?, ControlFreed(s);
    var (t, lease) := Select(s1, key, moved, luck, w, cfg);
    var gone' := FreedForReserve(s, t.pool, w, cfg, gone);
    SelectBalance(s1, key, moved, luck, w, cfg, NONE, gone');
    assert NONE + Opt(LeaseId(lease)) == Opt(LeaseId(lease));
    SelectKeepsNoControlLease(s1, key, moved, luck, w, cfg);
  }

  lemma MoveControlBalance(s: Mux, luck: Luck, w: World, cfg: Config, gone: set<nat>)
    requires Balanced(s, NONE, gone, cfg)
    ensures Leaves(s, MoveControl(s, luck, w, cfg).0, false, w, cfg, gone)
  {
    var (s2, lease) := Select(ControlFreed(s), Some(CONTROL_KEY), s.routes.control.Some?, luck, w, cfg);
    MoveControlSelects(s, luck, w, cfg, gone);
    var t := MoveControl(s, luck, w, cfg).0;
    assert Held(s2) + Opt(LeaseId(lease)) == Held(t) + NONE;
    BalanceMoves(s2, t, Opt(LeaseId(lease)), NONE, gone + PrunedBetween(s.pool, s2.pool, w, cfg), cfg);
  }

  lemma SelectKeepsNoControlLease(s: Mux, routeKey: Option<string>, migrate: bool, luck: Luck, w: World, cfg: Config)
    requires s.controlLease.None?
    ensures Select(s, routeKey, migrate, luck, w, cfg).0.controlLease.None?
  {
    var pool, p, pool' := SelectIsEnsure(s, routeKey, migrate, luck, w, cfg);
  }

  /** More steps of the message that reserve nothing and leave the balance as it is. */
  lemma LeavesOn(s: Mux, t: Mux, u: Mux, loses: bool, w: World, cfg: Config, gone: set<nat>)
    requires Leaves(s, t, loses, w, cfg, gone) && u.pool.nextId == t.pool.nextId
    requires var extra := if loses then multiset{s.pool.nextId} else NONE;
      Balanced(u, extra, gone + PrunedBetween(s.pool, t.pool, w, cfg), cfg)
    ensures Leaves(s, u, loses, w, cfg, gone)
  {
  }

  lemma WrittenLeaves(s: Mux, t: Mux, o: Output, loses: bool, w: World, cfg: Config, gone: set<nat>)
    requires Leaves(s, t, loses, w, cfg, gone)
    ensures Leaves(s, Written(t, o), loses, w, cfg, gone)
  {
    var extra := if loses then multiset{s.pool.nextId} else NONE;
    SameBalance(t, Written(t, o), extra, gone + PrunedBetween(s.pool, t.pool, w, cfg), cfg);
  }

  lemma InitialControlBalance(s: Mux, luck: Luck, w: World, cfg: Config, gone: set<nat>)
    requires Balanced(s, NONE, gone, cfg)
    ensures Leaves(s, InitialControl(s, luck, w, cfg).0, false, w, cfg, gone)
    ensures Leaves(s, Controlled(s, luck, w, cfg).0, false, w, cfg, gone)
  {
    LeavesAll(s, s, w, cfg, gone);
    MoveControlBalance(s, luck, w, cfg, gone);
  }

  lemma InitializeBalance(s: Mux, id: Id, luck: Luck, w: World, cfg: Config, gone: set<nat>)
    requires Balanced(s, NONE, gone, cfg)
    ensures Leaves(s, HandleInitialize(s, id, luck, w, cfg).0, false, w, cfg, gone)
  {
    InitialControlBalance(s, luck, w, cfg, gone);
    var (s1, ok) := InitialControl(s, luck, w, cfg);
    if ok && s1.routes.control.Some? {
      GreetLeaves(s, s1, s1.routes.control.value, id, luck, w, cfg, gone);
    }
  }

  lemma GreetLeaves(s: Mux, s1: Mux, p: string, id: Id, luck: Luck, w: World, cfg: Config, gone: set<nat>)
    requires Leaves(s, s1, false, w, cfg, gone)
    ensures var s2 := Reach(s1, p, luck, w, cfg).0;
      && Leaves(s, s2, false, w, cfg, gone)
      && Leaves(s, Written(s2, Reply(id, InitialResult(p))), false, w, cfg, gone)
  {
    var s2 := Reach(s1, p, luck, w, cfg).0;
    ReachBalance(s1, p, luck, w, cfg, NONE, gone + PrunedBetween(s.pool, s1.pool, w, cfg));
    LeavesOn(s, s1, s2, false, w, cfg, gone);
    WrittenLeaves(s, s2, Reply(id, InitialResult(p)), false, w, cfg, gone);
  }

  lemma PlainSendBalance(s: Mux, p: string, id: Id, luck: Luck, w: World, cfg: Config, gone: set<nat>)
    requires Balanced(s, NONE, gone, cfg) && (id != IdNull ==> Fresh(s, id))
    ensures var t := Send(s, p, id, None, true, luck, w, cfg).0;
      Balanced(t, NONE, gone, cfg) && t.pool.nextId == s.pool.nextId
  {
    SendBalance(s, p, id, None, true, luck, w, cfg, gone);
  }

  lemma GlobalBalance(s: Mux, verb: string, id: Id, luck: Luck, w: World, cfg: Config, gone: set<nat>)
    requires Balanced(s, NONE, gone, cfg) && (id != IdNull ==> Fresh(s, id))
    ensures Leaves(s, HandleGlobal(s, verb, id, luck, w, cfg).0, false, w, cfg, gone)
  {
    InitialControlBalance(s, luck, w, cfg, gone);
    if id != IdNull {
      MoveControlKeepsFresh(s, luck, w, cfg, id);
    }
    var (s1, ok) := Controlled(s, luck, w, cfg);
    var gone' := gone + PrunedBetween(s.pool, s1.pool, w, cfg);
    if ok && s1.routes.control.Some? {
      var t := HandleGlobal(s, verb, id, luck, w, cfg).0;
      if verb != "thread/list" || RunningBackends(s1.backends) == [] {
        PlainSendBalance(s1, s1.routes.control.value, id, luck, w, cfg, gone');
      } else {
        SameBalance(s1, FanOut(s1, id, luck).0, NONE, gone', cfg);
      }
      LeavesOn(s, s1, t, false, w, cfg, gone);
    }
  }

  /** A selection followed by a send: the lease is kept with the request unless the send loses it. */
  lemma SelectedSendBalance(
    s: Mux, routeKey: Option<string>, migrate: bool, id: Id, luck: Luck, w: World, cfg: Config, routes: Routes,
    gone: set<nat>)
    requires Balanced(s, NONE, gone, cfg) && (id != IdNull ==> Fresh(s, id))
    ensures var (s1, lease) := Select(s, routeKey, migrate, luck, w, cfg);
      if lease.None? then Leaves(s, s1, false, w, cfg, gone)
      else
        var s2, q := s1.(routes := routes), lease.value.profile;
        Leaves(s, Send(s2, q, id, Some(lease.value.id), true, luck, w, cfg).0,
               SendLoses(s2, q, id, luck, w, cfg), w, cfg, gone)
  {
    SelectBalance(s, routeKey, migrate, luck, w, cfg, NONE, gone);
    var (s1, lease) := Select(s, routeKey, migrate, luck, w, cfg);
    if lease.Some? {
      if id != IdNull {
        SelectKeepsFresh(s, routeKey, migrate, luck, w, cfg, id);
      }
      var gone' := gone + PrunedBetween(s.pool, s1.pool, w, cfg);
      assert NONE + Opt(LeaseId(lease)) == Opt(Some(lease.value.id));
      SameBalance(s1, s1.(routes := routes), Opt(Some(lease.value.id)), gone', cfg);
      SendBalance(s1.(routes := routes), lease.value.profile, id, Some(lease.value.id), true, luck, w, cfg, gone');
    } else {
      assert NONE + Opt(LeaseId(lease)) == NONE;
    }
  }

  predicate StartLoses(s: Mux, id: Id, luck: Luck, w: World, cfg: Config) {
    var (s1, lease) := Select(s, None, false, luck, w, cfg);
    lease.Some?
    && SendLoses(s1.(routes := Remember(s1.routes, id, lease.value.profile)), lease.value.profile, id, luck, w, cfg)
  }

  predicate UnroutedLoses(s: Mux, id: Id, luck: Luck, w: World, cfg: Config) {
    var (s1, lease) := Select(s, None, false, luck, w, cfg);
    lease.Some? && SendLoses(s1, lease.value.profile, id, luck, w, cfg)
  }

  predicate MigratedLoses(s: Mux, p: string, routeKey: string, id: Id, luck: Luck, w: World, cfg: Config) {
    var s1 := if Running(s, p) then s else s.(pool := MarkFailure(s.pool, cfg.policy, p, "process", None, w));
    var (s2, lease) := Select(s1, Some(routeKey), true, luck, w, cfg);
    lease.Some?
    && SendLoses(s2.(routes := BindRoute(s2.routes, routeKey, lease.value.profile)), lease.value.profile, id, luck, w,
      cfg)
  }

  lemma StartBalance(s: Mux, id: Id, luck: Luck, w: World, cfg: Config, gone: set<nat>)
    requires Balanced(s, NONE, gone, cfg) && (id != IdNull ==> Fresh(s, id))
    ensures Leaves(s, HandleStart(s, id, luck, w, cfg).0, StartLoses(s, id, luck, w, cfg), w, cfg, gone)
  {
    var (s1, lease) := Select(s, None, false, luck, w, cfg);
    var routes := if lease.Some? then Remember(s1.routes, id, lease.value.profile) else s1.routes;
    SelectedSendBalance(s, None, false, id, luck, w, cfg, routes, gone);
  }

  lemma UnroutedBalance(s: Mux, id: Id, luck: Luck, w: World, cfg: Config, gone: set<nat>)
    requires Balanced(s, NONE, gone, cfg) && (id != IdNull ==> Fresh(s, id))
    ensures Leaves(s, HandleUnrouted(s, id, luck, w, cfg).0, UnroutedLoses(s, id, luck, w, cfg), w, cfg, gone)
  {
    var (s1, lease) := Select(s, None, false, luck, w, cfg);
    SelectedSendBalance(s, None, false, id, luck, w, cfg, s1.routes, gone);
    assert s1.(routes := s1.routes) == s1;
  }

  lemma MigratedBalance(
    s: Mux, p: string, routeKey: string, id: Id, luck: Luck, w: World, cfg: Config, gone: set<nat>)
    requires Balanced(s, NONE, gone, cfg) && (id != IdNull ==> Fresh(s, id))
    ensures Leaves(
      s, HandleMigrated(s, p, routeKey, id, luck, w, cfg).0, MigratedLoses(s, p, routeKey, id, luck, w, cfg), w, cfg,
      gone)
  {
    var s1 := if Running(s, p) then s else s.(pool := MarkFailure(s.pool, cfg.policy, p, "process", None, w));
    SameBalance(s, s1, NONE, gone, cfg);
    var (s2, lease) := Select(s1, Some(routeKey), true, luck, w, cfg);
    var routes := if lease.Some? then BindRoute(s2.routes, routeKey, lease.value.profile) else s2.routes;
    SelectedSendBalance(s1, Some(routeKey), true, id, luck, w, cfg, routes, gone);
  }

  predicate RoutedLoses(s: Mux, p: string, routeKey: Option<string>, id: Id, luck: Luck, w: World, cfg: Config) {
    && routeKey.Some?
    && !(Running(s, p) && BackendHealthy(s, p, w))
    && MigratedLoses(s, p, routeKey.value, id, luck, w, cfg)
  }

  lemma RoutedBalance(
    s: Mux, p: string, routeKey: Option<string>, id: Id, luck: Luck, w: World, cfg: Config, gone: set<nat>)
    requires Balanced(s, NONE, gone, cfg) && (id != IdNull ==> Fresh(s, id))
    ensures Leaves(
      s, HandleRouted(s, p, routeKey, id, luck, w, cfg).0, RoutedLoses(s, p, routeKey, id, luck, w, cfg), w, cfg, gone)
  {
    if routeKey.None? || (Running(s, p) && BackendHealthy(s, p, w)) {
      PlainSendBalance(s, p, id, luck, w, cfg, gone);
      LeavesAll(s, Send(s, p, id, None, true, luck, w, cfg).0, w, cfg, gone);
    } else {
      MigratedBalance(s, p, routeKey.value, id, luck, w, cfg, gone);
    }
  }

  /** The requests outside `thread/start` and the global ones that take a lease and lose it. */
  predicate PlanLoses(s: Mux, plan: Plan, id: Id, luck: Luck, w: World, cfg: Config) {
    match plan
    case PlanSelect => StartLoses(s, id, luck, w, cfg)
    case PlanBackend(p, routeKey) =>
      if p.Some? then RoutedLoses(s, p.value, routeKey, id, luck, w, cfg) else UnroutedLoses(s, id, luck, w, cfg)
    case _ => false
  }

  predicate OtherLoses(s: Mux, verb: string, m: ClientMessage, luck: Luck, w: World, cfg: Config) {
    var (routes, plan) := PlanRequest(s.routes, verb, m.thread, m.id);
    PlanLoses(s.(routes := routes), plan, m.id, luck, w, cfg)
  }

  lemma PlanBalance(s: Mux, verb: string, plan: Plan, id: Id, luck: Luck, w: World, cfg: Config, gone: set<nat>)
    requires Balanced(s, NONE, gone, cfg) && (id != IdNull ==> Fresh(s, id))
    ensures Leaves(
      s, HandlePlan(s, verb, plan, id, luck, w, cfg).0, PlanLoses(s, plan, id, luck, w, cfg), w, cfg, gone)
  {
    match plan
    case PlanAggregate => GlobalBalance(s, verb, id, luck, w, cfg, gone);
    case PlanSelect => StartBalance(s, id, luck, w, cfg, gone);
    case PlanBackend(p, routeKey) =>
      if p.Some? {
        RoutedBalance(s, p.value, routeKey, id, luck, w, cfg, gone);
      } else {
        UnroutedBalance(s, id, luck, w, cfg, gone);
      }
    case _ =>
      LeavesAll(s, s, w, cfg, gone);
      WrittenLeaves(s, s, Reply(id, ErrorContent(NO_ROUTE)), false, w, cfg, gone);
  }

  lemma OtherBalance(s: Mux, verb: string, m: ClientMessage, luck: Luck, w: World, cfg: Config, gone: set<nat>)
    requires Balanced(s, NONE, gone, cfg) && (m.id != IdNull ==> Fresh(s, m.id))
    ensures Leaves(
      s, HandleOther(s, verb, m, luck, w, cfg).0, OtherLoses(s, verb, m, luck, w, cfg), w, cfg, gone)
  {
    var (routes, plan) := PlanRequest(s.routes, verb, m.thread, m.id);
    SameBalance(s, s.(routes := routes), NONE, gone, cfg);
    PlanBalance(s.(routes := routes), verb, plan, m.id, luck, w, cfg, gone);
  }

  /** The requests that take a lease, and lose it. */
  predicate LosesLease(s: Mux, m: ClientMessage, luck: Luck, w: World, cfg: Config) {
    && IsRequest(s, m) && m.verb.Verb?
    && var verb := m.verb.name;
       if verb == "initialize" || verb == "initialized" then false
       else if verb in GLOBAL_METHODS && verb != "thread/list" then false
       else if verb == "thread/start" then StartLoses(s, m.id, luck, w, cfg)
       else OtherLoses(s, verb, m, luck, w, cfg)
  }

  lemma RequestBalance(s: Mux, m: ClientMessage, luck: Luck, w: World, cfg: Config, gone: set<nat>)
    requires Balanced(s, NONE, gone, cfg) && (m.id != IdNull ==> Fresh(s, m.id))
    requires IsRequest(s, m) && m.verb.Verb?
    ensures Leaves(s, HandleClient(s, m, luck, w, cfg).0, LosesLease(s, m, luck, w, cfg), w, cfg, gone)
  {
    var verb := m.verb.name;
    if verb == "initialize" {
      InitializeBalance(s, m.id, luck, w, cfg, gone);
    } else if verb == "initialized" {
      LeavesAll(s, s, w, cfg, gone);
    } else if verb in GLOBAL_METHODS && verb != "thread/list" {
      GlobalBalance(s, verb, m.id, luck, w, cfg, gone);
    } else if verb == "thread/start" {
      StartBalance(s, m.id, luck, w, cfg, gone);
    } else {
      OtherBalance(s, verb, m, luck, w, cfg, gone);
    }
  }

  /** A client message, exactly: what it loses, and what it prunes. */
  lemma ClientBalance(s: Mux, m: ClientMessage, luck: Luck, w: World, cfg: Config, gone: set<nat>)
    requires Balanced(s, NONE, gone, cfg) && (m.id != IdNull ==> Fresh(s, m.id))
    ensures Leaves(s, ClientLine(s, m, luck, w, cfg), LosesLease(s, m, luck, w, cfg), w, cfg, gone)
  {
    if IsServerAnswer(s, m) {
      var (routes, request) := RouteResponse(s.routes, m.id.s);
      var s1 := s.(routes := routes);
      SameBalance(s, s1, NONE, gone, cfg);
      SendBalance(s1, request.value.backend, request.value.original, None, false, luck, w, cfg, gone);
      LeavesAll(s, HandleClient(s, m, luck, w, cfg).0, w, cfg, gone);
    } else if IsRequest(s, m) && m.verb.Verb? {
      RequestBalance(s, m, luck, w, cfg, gone);
    } else {
      LeavesAll(s, s, w, cfg, gone);
    }
    var loses := LosesLease(s, m, luck, w, cfg);
    WrittenLeaves(
      s, HandleClient(s, m, luck, w, cfg).0, Reply(m.id, ErrorContent(BACKEND_FAILED)), loses, w, cfg, gone);
  }

  /** Some lease is held that is no longer in the pool. */
  predicate HoldsAny(s: Mux, gone: set<nat>) {
    exists id :: id in gone && Held(s)[id] > 0
  }

  lemma ConservedIff(s: Mux, lost: Option<nat>, gone: set<nat>, cfg: Config)
    requires Balanced(s, Opt(lost), gone, cfg) && (lost.Some? ==> lost.value !in gone)
    ensures Conserved(s, cfg) <==> lost.None? && !HoldsAny(s, gone)
  {
    if lost.Some? {
      assert Ours(s.pool.leases, cfg)[lost.value] == Held(s)[lost.value] + 1;
    }
    if HoldsAny(s, gone) {
      var id :| id in gone && Held(s)[id] > 0;
      assert Ours(s.pool.leases, cfg)[id] == 0;
    }
  }

  /**
   * A client message keeps the leases conserved exactly when it does not lose the one it took, and holds none at its
   * end that its own reservation has pruned.
   */
  lemma ClientConserves(s: Mux, m: ClientMessage, luck: Luck, w: World, cfg: Config)
    requires Conserved(s, cfg) && (m.id != IdNull ==> Fresh(s, m.id))
    ensures var t := ClientLine(s, m, luck, w, cfg);
      Conserved(t, cfg) <==> !LosesLease(s, m, luck, w, cfg) && !HoldsAny(t, PrunedBetween(s.pool, t.pool, w, cfg))
  {
    var t, loses := ClientLine(s, m, luck, w, cfg), LosesLease(s, m, luck, w, cfg);
    ClientBalance(s, m, luck, w, cfg, {});
    assert {} + PrunedBetween(s.pool, t.pool, w, cfg) == PrunedBetween(s.pool, t.pool, w, cfg);
    ConservedIff(t, if loses then Some(s.pool.nextId) else None, PrunedBetween(s.pool, t.pool, w, cfg), cfg);
  }

  // ---------------------------------------------------------------- backend messages

  /** A misrouted answer for a request that holds a lease. */
  predicate SwallowsLease(s: Mux, p: string, r: Response) {
    Misrouted(s, p, r.id) && LeaseOf(Get(s.pending, MessageKey(p, r.id))).Some?
  }

  lemma DeliverBalance(s: Mux, p: string, r: Response, lease: Option<nat>, w: World, cfg: Config, gone: set<nat>)
    requires Balanced(s, Opt(lease), gone, cfg)
    ensures Balanced(Deliver(s, p, r, lease, w, cfg), NONE, gone, cfg)
  {
    var s1 := Written(s, Reply(r.id, FromBackend(r)));
    SameBalance(s, s1, Opt(lease), gone, cfg);
    assert NONE + Opt(lease) == Opt(lease);
    FreedBalance(s1, lease, NONE, gone, cfg);
    SameBalance(Freed(s1, lease), Deliver(s, p, r, lease, w, cfg), NONE, gone, cfg);
  }

  lemma UntrackedBalance(s: Mux, p: string, id: Id, routes: Routes, cfg: Config, gone: set<nat>)
    requires Balanced(s, NONE, gone, cfg)
    ensures Balanced(
      Untracked(s, p, id).(routes := routes), Opt(LeaseOf(Get(s.pending, MessageKey(p, id)))), gone, cfg)
  {
    UntrackedHolds(s, p, id, routes);
    var lease := LeaseOf(Get(s.pending, MessageKey(p, id)));
    BalanceMoves(s, Untracked(s, p, id).(routes := routes), NONE, Opt(lease), gone, cfg);
  }

  lemma UntrackedHolds(s: Mux, p: string, id: Id, routes: Routes)
    ensures Held(s) + NONE
      == Held(Untracked(s, p, id).(routes := routes)) + Opt(LeaseOf(Get(s.pending, MessageKey(p, id))))
  {
    HeldByPop(s.pending, MessageKey(p, id));
  }

  lemma ResponseBalance(s: Mux, p: string, r: Response, w: World, cfg: Config, gone: set<nat>)
    requires Balanced(s, NONE, gone, cfg) && Has(s.backends, p)
    ensures Balanced(
      BackendLine(s, p, Answered(r), w, cfg),
      if SwallowsLease(s, p, r) then Opt(LeaseOf(Get(s.pending, MessageKey(p, r.id)))) else NONE, gone, cfg)
  {
    var key := MessageKey(p, r.id);
    if Has(s.aggPending, key) {
      SameBalance(s, HandleShare(s, key, Get(s.aggPending, key).value, r), NONE, gone, cfg);
    } else {
      DirectBalance(s, p, r, w, cfg, gone);
    }
  }

  /** An answer to a request that is not fanned out. */
  lemma DirectBalance(s: Mux, p: string, r: Response, w: World, cfg: Config, gone: set<nat>)
    requires Balanced(s, NONE, gone, cfg) && Has(s.backends, p) && !Has(s.aggPending, MessageKey(p, r.id))
    ensures Balanced(
      BackendLine(s, p, Answered(r), w, cfg),
      if Misrouted(s, p, r.id) then Opt(LeaseOf(Get(s.pending, MessageKey(p, r.id)))) else NONE, gone, cfg)
  {
    var lease := LeaseOf(Get(s.pending, MessageKey(p, r.id)));
    var (routes, expected) := RecordResponse(s.routes, p, r.id, r.thread);
    UntrackedBalance(s, p, r.id, routes, cfg, gone);
    var s1 := Untracked(s, p, r.id).(routes := routes);
    if expected {
      DeliverBalance(s1, p, r, lease, w, cfg, gone);
    } else {
      RetireBalance(s1, p, w, cfg, Opt(lease), gone);
    }
  }

  /** An answer releases its request's lease, unless it is refused as misrouted. */
  lemma ResponseConserves(s: Mux, p: string, r: Response, w: World, cfg: Config)
    requires Conserved(s, cfg) && Has(s.backends, p)
    ensures Conserved(BackendLine(s, p, Answered(r), w, cfg), cfg) <==> !SwallowsLease(s, p, r)
  {
    ResponseBalance(s, p, r, w, cfg, {});
    ConservedIff(
      BackendLine(s, p, Answered(r), w, cfg),
      if SwallowsLease(s, p, r) then LeaseOf(Get(s.pending, MessageKey(p, r.id))) else None, {}, cfg);
  }

  lemma BackendBalance(s: Mux, p: string, m: BackendMessage, w: World, cfg: Config, gone: set<nat>)
    requires Balanced(s, NONE, gone, cfg)
    requires m.Answered? && Has(s.backends, p) ==> !SwallowsLease(s, p, m.response)
    ensures Balanced(BackendLine(s, p, m, w, cfg), NONE, gone, cfg)
  {
    if Has(s.backends, p) {
      match m
      case Answered(r) => ResponseBalance(s, p, r, w, cfg, gone);
      case Calls(id, body) => SameBalance(s, BackendLine(s, p, m, w, cfg), NONE, gone, cfg);
      case Notifies(started, body) => SameBalance(s, BackendLine(s, p, m, w, cfg), NONE, gone, cfg);
    }
  }

  // ---------------------------------------------------------------- the rest of the world

  /** Another process takes leases in its own name, and releases only its own. */
  predicate HandsOff(pool: PoolState, e: PoolEvent, cfg: Config) {
    && (e.EvReserve? ==> e.req.owner != Pid(cfg.pid))
    && (e.EvRelease? ==> forall l :: l in pool.leases && l.id == e.id ==> l.owner != Pid(cfg.pid))
  }

  lemma {:induction false} OursUnaffected(leases: seq<PoolLease>, id: nat, cfg: Config)
    requires forall l :: l in leases && l.id == id ==> l.owner != Pid(cfg.pid)
    ensures Ours(WithoutLease(leases, id), cfg) == Ours(leases, cfg)
  {
    if leases != [] {
      OursUnaffected(leases[..|leases| - 1], id, cfg);
      OursAppend(WithoutLease(leases[..|leases| - 1], id), leases[|leases| - 1], cfg);
    }
  }

  lemma {:induction false} BeatKeepsIds(leases: seq<PoolLease>, id: nat, now: real)
    ensures var r := Beat(leases, id, now);
      |r| == |leases| && forall i :: 0 <= i < |r| ==> r[i].id == leases[i].id && r[i].owner == leases[i].owner
  {
    if leases != [] && leases[0].id != id {
      BeatKeepsIds(leases[1..], id, now);
    }
  }

  lemma {:induction false} OursByIds(a: seq<PoolLease>, b: seq<PoolLease>, cfg: Config)
    requires |a| == |b| && forall i :: 0 <= i < |a| ==> a[i].id == b[i].id && a[i].owner == b[i].owner
    ensures Ours(a, cfg) == Ours(b, cfg)
  {
    if a != [] {
      OursByIds(a[..|a| - 1], b[..|b| - 1], cfg);
    }
  }

  lemma HeartbeatKeepsOurs(pool: PoolState, id: nat, now: real, cfg: Config)
    requires LeaseIdsUnique(pool)
    ensures var after := Heartbeat(pool, id, now);
      Ours(after.leases, cfg) == Ours(pool.leases, cfg) && LeaseIdsUnique(after)
  {
    var after := Heartbeat(pool, id, now);
    BeatKeepsIds(pool.leases, id, now);
    OursByIds(after.leases, pool.leases, cfg);
    forall l | l in after.leases ensures l.id < after.nextId {
      var i :| 0 <= i < |after.leases| && after.leases[i] == l;
      assert pool.leases[i] in pool.leases;
    }
  }

  lemma ForeignKeepsOurs(pool: PoolState, e: PoolEvent, cfg: Config)
    requires LeaseIdsUnique(pool) && HandsOff(pool, e, cfg)
    ensures OursChange(pool, Apply(cfg.policy, pool, e), e.w, cfg, NONE)
  {
    match e
    case EvReserve(profiles, usages, req, w) => ReserveLeases(pool, profiles, usages, req, w, cfg);
    case EvHeartbeat(id, w) => HeartbeatKeepsOurs(pool, id, w.now, cfg);
    case EvRelease(id, w) =>
      ReleaseUnique(pool, id);
      OursUnaffected(pool.leases, id, cfg);
    case _ =>
  }

  lemma ForeignBalance(s: Mux, e: PoolEvent, cfg: Config, gone: set<nat>)
    requires Balanced(s, NONE, gone, cfg) && HandsOff(s.pool, e, cfg)
    ensures Leaves(s, s.(pool := Apply(cfg.policy, s.pool, e)), false, e.w, cfg, gone)
  {
    ForeignKeepsOurs(s.pool, e, cfg);
    PoolLeaves(s, Apply(cfg.policy, s.pool, e), e.w, cfg, gone);
  }

  lemma PoolLeaves(s: Mux, pool: PoolState, w: World, cfg: Config, gone: set<nat>)
    requires Balanced(s, NONE, gone, cfg) && OursChange(s.pool, pool, w, cfg, NONE)
    ensures Leaves(s, s.(pool := pool), false, w, cfg, gone)
  {
    PoolChanges(s, pool, w, NONE, NONE, gone, cfg);
    assert NONE + NONE == NONE;
  }

  /** A reservation of another process is granted, and finds a lease of ours that is stale. */
  predicate PrunesOurs(pool: PoolState, e: PoolEvent, cfg: Config) {
    && e.EvReserve? && Reserve(pool, cfg.policy, e.profiles, e.usages, e.req, e.w).1.Reserved?
    && exists l :: l in pool.leases && l.owner == Pid(cfg.pid) && !LeaseLives(l, cfg.policy, e.w)
  }

  lemma PrunesOursIs(pool: PoolState, e: PoolEvent, cfg: Config)
    requires LeaseIdsUnique(pool)
    ensures PrunesOurs(pool, e, cfg) <==> PrunedBetween(pool, Apply(cfg.policy, pool, e), e.w, cfg) != {}
  {
    if e.EvReserve? {
      ReserveLeases(pool, e.profiles, e.usages, e.req, e.w, cfg);
      if PrunesOurs(pool, e, cfg) {
        var l :| l in pool.leases && l.owner == Pid(cfg.pid) && !LeaseLives(l, cfg.policy, e.w);
        assert l.id in StaleIds(pool.leases, e.w, cfg);
      }
    }
  }

  lemma {:induction false} OursHas(leases: seq<PoolLease>, l: PoolLease, cfg: Config)
    requires l in leases && l.owner == Pid(cfg.pid)
    ensures Ours(leases, cfg)[l.id] > 0
  {
    if leases[|leases| - 1] != l {
      OursHas(leases[..|leases| - 1], l, cfg);
    }
  }

  /** Stale leases are held, as long as the leases are conserved. */
  lemma StaleAreHeld(s: Mux, w: World, cfg: Config, id: nat)
    requires Conserved(s, cfg) && id in StaleIds(s.pool.leases, w, cfg)
    ensures Held(s)[id] > 0
  {
    var l :| l in s.pool.leases && l.owner == Pid(cfg.pid) && l.id == id;
    OursHas(s.pool.leases, l, cfg);
    assert Ours(s.pool.leases, cfg)[id] == Held(s)[id] + NONE[id];
  }

  /** A step of another process keeps the leases conserved exactly when it prunes none of ours. */
  lemma ForeignConserves(s: Mux, e: PoolEvent, cfg: Config)
    requires Conserved(s, cfg) && HandsOff(s.pool, e, cfg)
    ensures Conserved(s.(pool := Apply(cfg.policy, s.pool, e)), cfg) <==> !PrunesOurs(s.pool, e, cfg)
  {
    var t := s.(pool := Apply(cfg.policy, s.pool, e));
    var dropped := PrunedBetween(s.pool, t.pool, e.w, cfg);
    ForeignBalance(s, e, cfg, {});
    assert {} + dropped == dropped;
    ConservedIff(t, None, dropped, cfg);
    PrunesOursIs(s.pool, e, cfg);
    HoldsAllPruned(s, t, e.w, cfg);
  }

  lemma HoldsAllPruned(s: Mux, t: Mux, w: World, cfg: Config)
    requires Conserved(s, cfg) && Held(t) == Held(s)
    ensures HoldsAny(t, PrunedBetween(s.pool, t.pool, w, cfg)) <==> PrunedBetween(s.pool, t.pool, w, cfg) != {}
  {
    var dropped := PrunedBetween(s.pool, t.pool, w, cfg);
    if id :| id in dropped {
      StaleAreHeld(s, w, cfg, id);
    }
  }
}
