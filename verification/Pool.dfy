/** The account pool of pool.py: leases, sticky routes and account health in one shared file. */
module Pool {
  // Every operation loads the file, changes it and saves it under one lock, so each is one atomic step. The functions
  // here say what a step does; the coordinator object performs it in place and is proved against them.

  import opened Wrappers
  import opened Text
  import opened AccountUsages

  // ---------------------------------------------------------------- data

  datatype HealthStatus = Healthy | AuthExpired | Cooldown | Disabled

  datatype PoolHealth = PoolHealth(
    status: HealthStatus,
    failureCount: nat,
    cooldownUntil: Option<real>,
    updatedAt: real,
    fingerprint: Option<string>)

  const INITIAL_HEALTH := PoolHealth(Healthy, 0, None, 0.0, None)

  /** The owner text of a lease: `pid:` and a number, or anything else. */
  datatype Owner = Pid(pid: int) | OtherOwner(text: string)

  datatype PoolLease = PoolLease(
    id: nat,
    profile: string,
    owner: Owner,
    startedAt: real,
    heartbeat: real,
    routeKey: Option<string>)

  datatype PoolRoute = PoolRoute(profile: string, createdAt: real, updatedAt: real)

  /** The shared file. `nextId` stands for the randomness that keeps new lease ids unused. */
  datatype PoolState = PoolState(
    leases: seq<PoolLease>,
    routes: map<string, PoolRoute>,
    health: map<string, PoolHealth>,
    selectedAt: map<string, real>,
    nextId: nat)

  const EMPTY_POOL := PoolState([], map[], map[], map[], 0)

  datatype PoolPolicy = PoolPolicy(cooldownSeconds: real, maxCooldownSeconds: real, staleLeaseSeconds: real)

  /** What one locked step sees outside the file: the clock, the live processes, the readable credential files. */
  datatype World = World(now: real, alive: set<int>, files: map<string, string>) {
    function Fingerprint(profile: string): Option<string> {
      if profile in files then Some(files[profile]) else None
    }
  }

  datatype Candidate = Candidate(
    profile: string,
    remaining: real,
    effective: real,
    activeLeases: nat,
    resetsAt: Option<int>)

  datatype ReserveRequest = ReserveRequest(
    routeKey: Option<string>,
    owner: Owner,
    allowMigrate: bool,
    recoverSticky: bool)
  {
    /** An absent and an empty route key both mean "no route". */
    predicate Routed() {
      routeKey.GetOr("") != ""
    }
  }

  datatype ReserveResult = Reserved(lease: PoolLease) | StickyUnavailable | NoAccount

  // ---------------------------------------------------------------- eligibility and pruning

  predicate HealthEligible(h: PoolHealth, now: real) {
    match h.status
    case AuthExpired => false
    case Disabled => false
    case Cooldown => h.cooldownUntil.None? || h.cooldownUntil.value <= now
    case Healthy => true
  }

  predicate OwnerIsAlive(owner: Owner, alive: set<int>) {
    owner.Pid? && owner.pid > 0 && owner.pid in alive
  }

  predicate LeaseLives(l: PoolLease, policy: PoolPolicy, w: World) {
    OwnerIsAlive(l.owner, w.alive) && w.now - l.heartbeat <= policy.staleLeaseSeconds
  }

  function LiveLeases(leases: seq<PoolLease>, policy: PoolPolicy, w: World): (r: seq<PoolLease>)
    ensures forall l :: l in r <==> l in leases && LeaseLives(l, policy, w)
  {
    if leases == [] then []
    else
      var front, last := LiveLeases(leases[..|leases| - 1], policy, w), leases[|leases| - 1];
      if LeaseLives(last, policy, w) then front + [last] else front
  }

  predicate CooldownOver(h: PoolHealth, now: real) {
    h.status == Cooldown && h.cooldownUntil.Some? && h.cooldownUntil.value <= now
  }

  function PrunedHealth(h: PoolHealth, now: real): PoolHealth {
    if CooldownOver(h, now) then h.(status := Healthy, cooldownUntil := None, updatedAt := now) else h
  }

  function Prune(st: PoolState, policy: PoolPolicy, w: World): PoolState {
    st.(leases := LiveLeases(st.leases, policy, w),
        health := map p | p in st.health :: PrunedHealth(st.health[p], w.now))
  }

  function HealthOf(st: PoolState, profile: string): PoolHealth {
    if profile in st.health then st.health[profile] else INITIAL_HEALTH
  }

  /** An expired account comes back once its credential file differs from the one that failed. */
  function RecoveredHealth(h: PoolHealth, file: Option<string>, now: real): PoolHealth {
    if h.status != AuthExpired || file.None? then h
    else if h.fingerprint.None? then h.(fingerprint := file)
    else if h.fingerprint == file then h
    else PoolHealth(Healthy, 0, None, now, file)
  }

  /** `_health_after_auth_change`: the health, and the file with any change of it recorded. */
  function HealthAfterAuthChange(st: PoolState, profile: string, w: World): PoolState {
    var h := HealthOf(st, profile);
    var h' := RecoveredHealth(h, w.Fingerprint(profile), w.now);
    if h' == h then st
    else
      st.(health := st.health[profile := h'],
          selectedAt := if h'.status == Healthy && profile !in st.selectedAt
                        then st.selectedAt[profile := w.now] else st.selectedAt)
  }

  // ---------------------------------------------------------------- candidates

  function LeaseCount(leases: seq<PoolLease>, profile: string): nat {
    if leases == [] then 0
    else LeaseCount(leases[..|leases| - 1], profile) + (if leases[|leases| - 1].profile == profile then 1 else 0)
  }

  function CapacityOf(usages: map<string, AccountUsage>, profile: string): Option<Capacity> {
    UsageCapacity(if profile in usages then Some(usages[profile]) else None)
  }

  function CandidateFor(st: PoolState, profile: string, capacity: Capacity): Candidate {
    var n := LeaseCount(st.leases, profile);
    Candidate(profile, capacity.remaining, capacity.remaining / (n + 1) as real, n, capacity.resetsAt)
  }

  /** The state after the loop over the first profiles, and the candidates it collected. */
  function Candidates(st: PoolState, profiles: seq<string>, usages: map<string, AccountUsage>, w: World)
    : (r: (PoolState, seq<Candidate>))
    ensures r.0.leases == st.leases && r.0.routes == st.routes && r.0.nextId == st.nextId
    ensures forall c :: c in r.1 ==> c.profile in profiles
  {
    if profiles == [] then (st, [])
    else
      var (before, found) := Candidates(st, profiles[..|profiles| - 1], usages, w);
      var p := profiles[|profiles| - 1];
      var after := HealthAfterAuthChange(before, p, w);
      var capacity := CapacityOf(usages, p);
      if capacity.None? || !HealthEligible(HealthOf(after, p), w.now) then (after, found)
      else (after, found + [CandidateFor(st, p, capacity.value)])
  }

  predicate ResetLess(a: Option<int>, b: Option<int>) {
    a.Some? && (b.None? || a.value < b.value)
  }

  function LastSelected(selectedAt: map<string, real>, profile: string): real {
    if profile in selectedAt then selectedAt[profile] else 0.0
  }

  /** The sort key of the candidate list: most quota per lease first, then four tie-breakers. */
  predicate KeyLess(a: Candidate, b: Candidate, selectedAt: map<string, real>) {
    var sa, sb := LastSelected(selectedAt, a.profile), LastSelected(selectedAt, b.profile);
    a.effective > b.effective
    || (a.effective == b.effective
        && (a.remaining > b.remaining
            || (a.remaining == b.remaining
                && (sa < sb
                    || (sa == sb
                        && (ResetLess(a.resetsAt, b.resetsAt)
                            || (a.resetsAt == b.resetsAt && StrLess(a.profile, b.profile))))))))
  }

  lemma KeyOrder(a: Candidate, b: Candidate, c: Candidate, selectedAt: map<string, real>)
    requires !KeyLess(a, b, selectedAt) && !KeyLess(b, c, selectedAt)
    ensures !KeyLess(a, c, selectedAt)
  {
    StrLessTotal(a.profile, b.profile);
    StrLessTotal(b.profile, c.profile);
    StrLessTotal(a.profile, c.profile);
    if StrLess(b.profile, a.profile) && StrLess(c.profile, b.profile) {
      StrLessTransitive(c.profile, b.profile, a.profile);
    }
  }

  /** The head of the sorted candidate list. */
  function Best(cands: seq<Candidate>, selectedAt: map<string, real>): (b: Candidate)
    requires cands != []
    ensures b in cands
    ensures forall c :: c in cands ==> !KeyLess(c, b, selectedAt)
  {
    var last := cands[|cands| - 1];
    StrLessTotal(last.profile, last.profile);
    if |cands| == 1 then last
    else
      var front := cands[..|cands| - 1];
      var b := Best(front, selectedAt);
      StrLessTotal(b.profile, last.profile);
      if KeyLess(last, b, selectedAt) then
        assert forall c :: c in front ==> !KeyLess(c, last, selectedAt) by {
          forall c | c in front ensures !KeyLess(c, last, selectedAt) {
            KeyOrder(c, b, last, selectedAt);
          }
        }
        last
      else b
  }

  function Named(cands: seq<Candidate>, profile: string): (c: Option<Candidate>)
    ensures c.Some? ==> c.value in cands && c.value.profile == profile
    ensures c.None? ==> forall x :: x in cands ==> x.profile != profile
  {
    if cands == [] then None
    else if cands[0].profile == profile then Some(cands[0])
    else Named(cands[1..], profile)
  }

  datatype Choice = Chosen(candidate: Candidate) | NoSticky | NoCandidate

  function Choose(st: PoolState, cands: seq<Candidate>, req: ReserveRequest): (c: Choice)
    ensures c.Chosen? ==> c.candidate in cands
  {
    var first := if cands == [] then NoCandidate else Chosen(Best(cands, st.selectedAt));
    if !req.Routed() || req.routeKey.value !in st.routes || (req.allowMigrate && !req.recoverSticky) then first
    else
      var sticky := Named(cands, st.routes[req.routeKey.value].profile);
      if sticky.Some? then Chosen(sticky.value)
      else if req.recoverSticky then first
      else NoSticky
  }

  // ---------------------------------------------------------------- the operations

  function Grant(st: PoolState, profile: string, req: ReserveRequest, w: World): (PoolState, PoolLease) {
    var lease := PoolLease(st.nextId, profile, req.owner, w.now, w.now, req.routeKey);
    var routes :=
      if req.Routed() then
        var key := req.routeKey.value;
        st.routes[key := PoolRoute(profile, if key in st.routes then st.routes[key].createdAt else w.now, w.now)]
      else st.routes;
    (PoolState(st.leases + [lease], routes, st.health, st.selectedAt[profile := w.now], st.nextId + 1), lease)
  }

  /** A failed reservation leaves the file as it was: the error is raised before it is saved. */
  function Reserve(
    st: PoolState, policy: PoolPolicy, profiles: seq<string>, usages: map<string, AccountUsage>,
    req: ReserveRequest, w: World): (r: (PoolState, ReserveResult))
  {
    var (seen, cands) := Candidates(Prune(st, policy, w), profiles, usages, w);
    match Choose(seen, cands, req)
    case NoCandidate => (st, NoAccount)
    case NoSticky => (st, StickyUnavailable)
    case Chosen(c) =>
      var (after, lease) := Grant(seen, c.profile, req, w);
      (after, Reserved(lease))
  }

  function WithoutLease(leases: seq<PoolLease>, id: nat): (r: seq<PoolLease>)
    ensures forall l :: l in r <==> l in leases && l.id != id
  {
    if leases == [] then []
    else
      var front, last := WithoutLease(leases[..|leases| - 1], id), leases[|leases| - 1];
      if last.id != id then front + [last] else front
  }

  function Release(st: PoolState, id: nat): PoolState {
    st.(leases := WithoutLease(st.leases, id))
  }

  /** The first lease with this id gets a new heartbeat. */
  function Beat(leases: seq<PoolLease>, id: nat, now: real): seq<PoolLease> {
    if leases == [] then []
    else if leases[0].id == id then [leases[0].(heartbeat := now)] + leases[1..]
    else [leases[0]] + Beat(leases[1..], id, now)
  }

  function Heartbeat(st: PoolState, id: nat, now: real): PoolState {
    st.(leases := Beat(st.leases, id, now))
  }

  function ClearRoute(st: PoolState, key: string): PoolState {
    st.(routes := st.routes - {key})
  }

  function MarkSuccess(st: PoolState, profile: string, w: World): PoolState {
    var previous := HealthOf(st, profile);
    st.(health := st.health[profile := PoolHealth(Healthy, 0, None, w.now, w.Fingerprint(profile))],
        selectedAt := if previous.status != Healthy && profile !in st.selectedAt
                      then st.selectedAt[profile := w.now] else st.selectedAt)
  }

  predicate IsAuthKind(kind: string) {
    kind == "401" || kind == "403" || kind == "auth"
  }

  function Pow2(n: nat): (p: real)
    ensures p >= 1.0
  {
    if n == 0 then 1.0 else 2.0 * Pow2(n - 1)
  }

  /** The wait after the k-th failure in a row: doubling, at most 32-fold, and capped. */
  function BackoffDelay(policy: PoolPolicy, k: nat): real
    requires k > 0
  {
    var doubled := policy.cooldownSeconds * Pow2(if k - 1 < 5 then k - 1 else 5);
    if policy.maxCooldownSeconds <= doubled then policy.maxCooldownSeconds else doubled
  }

  function FailedHealth(
    policy: PoolPolicy, count: nat, kind: string, fingerprint: Option<string>, now: real): PoolHealth
    requires count > 0
  {
    if IsAuthKind(kind) then PoolHealth(AuthExpired, count, None, now, fingerprint)
    else if kind == "disabled" then PoolHealth(Disabled, count, None, now, fingerprint)
    else PoolHealth(Cooldown, count, Some(now + BackoffDelay(policy, count)), now, fingerprint)
  }

  function MarkFailure(
    st: PoolState, policy: PoolPolicy, profile: string, kind: string, given: Option<string>, w: World): PoolState
  {
    var fingerprint := if given.Some? then given else w.Fingerprint(profile);
    st.(health := st.health[profile :=
      FailedHealth(policy, HealthOf(st, profile).failureCount + 1, kind, fingerprint, w.now)])
  }

  // ---------------------------------------------------------------- runs

  /** One locked step by any thread or process that shares the file. */
  datatype PoolEvent =
    | EvReserve(profiles: seq<string>, usages: map<string, AccountUsage>, req: ReserveRequest, w: World)
    | EvHeartbeat(id: nat, w: World)
    | EvRelease(id: nat, w: World)
    | EvClearRoute(key: string, w: World)
    | EvSuccess(profile: string, w: World)
    | EvFailure(profile: string, kind: string, given: Option<string>, w: World)

  function Apply(policy: PoolPolicy, st: PoolState, e: PoolEvent): PoolState {
    match e
    case EvReserve(profiles, usages, req, w) => Reserve(st, policy, profiles, usages, req, w).0
    case EvHeartbeat(id, w) => Heartbeat(st, id, w.now)
    case EvRelease(id, w) => Release(st, id)
    case EvClearRoute(key, w) => ClearRoute(st, key)
    case EvSuccess(profile, w) => MarkSuccess(st, profile, w)
    case EvFailure(profile, kind, given, w) => MarkFailure(st, policy, profile, kind, given, w)
  }

  function Run(policy: PoolPolicy, st: PoolState, es: seq<PoolEvent>): PoolState {
    if es == [] then st else Apply(policy, Run(policy, st, es[..|es| - 1]), es[|es| - 1])
  }

  /** The clock never goes backwards along the run. */
  predicate Monotone(es: seq<PoolEvent>) {
    forall i, j :: 0 <= i < j < |es| ==> es[i].w.now <= es[j].w.now
  }
}
