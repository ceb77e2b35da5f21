/** Runs in which the server breaks its own promises: the hypotheses of the run theorems are needed. */
module MuxDepartures {
  import opened Wrappers
  import opened Dicts
  import opened AccountUsages
  import opened Pool
  import F = PoolFairness
  import opened Router
  import opened Multiplexer
  import opened ReplyLaw
  import opened MuxStructure
  import opened LeaseLaw
  import MuxRuns

  const CFG := Config(PoolPolicy(30.0, 900.0, 86400.0), 1)
  const NOON := World(0.0, {1}, map[])
  const UNUSED := AccountUsage(None, Some(UsageWindow(0.0, None, None)), None, None, false, None)

  /** Everything goes well, with only this account saved; a fan-out stops at its first write. */
  function Fine(p: string): Luck {
    Luck(Some(Fetch([p], map[p := UNUSED])), true, false, true, true, 0)
  }

  // ---------------------------------------------------------------- a server with one backend

  /** The server after a first `initialize`: one backend, in control, holding the lease 0. */
  predicate Greeted(s: Mux, p: string) {
    && s.backends == [(p, true)] && s.pending == [] && s.aggPending == [] && s.aggs == []
    && s.routes == NO_ROUTES.(control := Some(p))
    && s.controlLease.Some? && s.pool.health == map[] && s.pool.leases != [] && |s.out| == 1
  }

  lemma OnlyCandidate(st: PoolState, p: string, w: World)
    requires p !in st.health && p !in w.files
    ensures var (after, found) := Candidates(st, [p], map[p := UNUSED], w);
      after == st && |found| == 1 && found[0].profile == p
  {
    assert [p][..0] == [];
    assert Candidates(st, [], map[p := UNUSED], w) == (st, []);
    assert UsageCapacity(Some(UNUSED)) == Some(Capacity(100.0, None));
  }

  lemma TakeOnly(s: Mux, p: string, routeKey: Option<string>, migrate: bool)
    requires p !in s.pool.health && (routeKey.GetOr("") !in s.pool.routes || migrate)
    ensures var (t, lease) := Take(s, routeKey, migrate, Fine(p), NOON, CFG);
      lease.Some? && lease.value.profile == p && t == s.(pool := t.pool)
      && t.pool.leases != [] && t.pool.health.Keys == s.pool.health.Keys
  {
    OnlyCandidate(Prune(s.pool, CFG.policy, NOON), p, NOON);
  }

  lemma AdmitNew(s: Mux, lease: PoolLease)
    requires !Has(s.backends, lease.profile)
    ensures Admit(s, lease, true, NOON, CFG) == (s.(backends := s.backends + [(lease.profile, true)]), Some(lease))
  {
  }

  lemma FirstControl(s: Mux, p: string)
    requires s.backends == [] && s.routes.control.None? && s.controlLease.None?
    requires s.pool.health == map[] && CONTROL_KEY !in s.pool.routes
    ensures var (t, ok) := MoveControl(s, Fine(p), NOON, CFG);
      && ok && t.routes == s.routes.(control := Some(p)) && t.backends == [(p, true)] && t.controlLease.Some?
      && t == s.(routes := t.routes, controlLease := t.controlLease, backends := t.backends, pool := t.pool)
      && t.pool.leases != [] && t.pool.health == map[]
  {
    var (s1, lease) := Take(s, Some(CONTROL_KEY), false, Fine(p), NOON, CFG);
    TakeOnly(s, p, Some(CONTROL_KEY), false);
    AdmitNew(s1, lease.value);
    assert s1.backends + [(p, true)] == [(p, true)];
  }

  lemma FirstInitialize(s: Mux, p: string, id: Id)
    requires s.backends == [] && s.routes.control.None? && s.controlLease.None?
    requires s.pool.health == map[] && CONTROL_KEY !in s.pool.routes
    ensures var (t, _) := MoveControl(s, Fine(p), NOON, CFG);
      HandleInitialize(s, id, Fine(p), NOON, CFG) == (Written(t, Reply(id, InitialResult(p))), true)
  {
    FirstControl(s, p);
    var s1 := MoveControl(s, Fine(p), NOON, CFG).0;
    assert InitialControl(s, Fine(p), NOON, CFG) == (s1, true);
    assert Running(s1, p);
    assert Reach(s1, p, Fine(p), NOON, CFG) == (s1, true);
  }

  function Hello(): ClientMessage {
    ClientMessage(IdInt(1), Verb("initialize"), None, "")
  }

  lemma AfterHello(p: string)
    ensures var s := ClientLine(Start(EMPTY_POOL), Hello(), Fine(p), NOON, CFG);
      Greeted(s, p) && s.out == [Reply(IdInt(1), InitialResult(p))]
  {
    var s := Start(EMPTY_POOL);
    FirstControl(s, p);
    FirstInitialize(s, p, IdInt(1));
    var t := MoveControl(s, Fine(p), NOON, CFG).0;
    assert ClientLine(s, Hello(), Fine(p), NOON, CFG) == Written(t, Reply(IdInt(1), InitialResult(p)));
    assert t.out == [];
    assert [] + [Reply(IdInt(1), InitialResult(p))] == [Reply(IdInt(1), InitialResult(p))];
  }

  lemma NotAThreadVerb()
    ensures !NamesThread("initialize")
  {
  }

  lemma NoneIsStale(s: Mux, t: Mux, w: World)
    requires s.pool.leases == []
    ensures PrunedBetween(s.pool, t.pool, w, CFG) == {}
  {
  }

  lemma GreetingFits(p: string)
    ensures var s, e := Start(EMPTY_POOL), Client(Hello(), Fine(p), NOON);
      && MuxRuns.Lawful(s, MuxRuns.Log([], {}), e) && !MuxRuns.Slips(s, e, CFG)
      && MuxRuns.Minded(s, e, CFG) && !MuxRuns.Loses(s, e, CFG) && !MuxRuns.Prunes(s, e, CFG)
  {
    NotAThreadVerb();
    NoneIsStale(Start(EMPTY_POOL), Step(Start(EMPTY_POOL), Client(Hello(), Fine(p), NOON), CFG), NOON);
  }

  /**
   * The run theorems are about real runs: this one meets all their hypotheses, and the server holds a lease after it.
   */
  lemma GreetingIsAllowed(p: string)
    ensures var es := [Client(Hello(), Fine(p), NOON)];
      && MuxRuns.LawfulRun(EMPTY_POOL, es, CFG) && MuxRuns.NeverSlips(EMPTY_POOL, es, CFG)
      && MuxRuns.MindedRun(EMPTY_POOL, es, CFG)
      && MuxRuns.NeverLoses(EMPTY_POOL, es, CFG) && MuxRuns.NeverPrunes(EMPTY_POOL, es, CFG)
      && Greeted(States(EMPTY_POOL, es, CFG), p) && States(EMPTY_POOL, es, CFG).controlLease.Some?
  {
    var e := Client(Hello(), Fine(p), NOON);
    assert [e][..0] == [];
    assert MuxRuns.LawfulRun(EMPTY_POOL, [], CFG) && MuxRuns.NeverSlips(EMPTY_POOL, [], CFG);
    assert MuxRuns.MindedRun(EMPTY_POOL, [], CFG);
    assert MuxRuns.NeverLoses(EMPTY_POOL, [], CFG) && MuxRuns.NeverPrunes(EMPTY_POOL, [], CFG);
    GreetingFits(p);
    AfterHello(p);
  }

  // ---------------------------------------------------------------- a lease held for a day

  const NEXT_DAY := World(86401.0, {1, 2}, map[])

  /** A day later, another process is granted a reservation. */
  function OtherReserves(p: string): PoolEvent {
    EvReserve([p], map[p := UNUSED], ReserveRequest(None, Pid(2), false, false), NEXT_DAY)
  }

  /** All leases in the pool were taken at noon by the server. */
  predicate FromNoon(pool: PoolState) {
    forall l :: l in pool.leases ==> l.owner == Pid(1) && l.heartbeat == 0.0
  }

  lemma TakenAtNoon(s: Mux, p: string, routeKey: Option<string>, migrate: bool)
    requires s.pool.leases == []
    ensures FromNoon(Take(s, routeKey, migrate, Fine(p), NOON, CFG).0.pool)
  {
    var req := SelectRequest(routeKey, migrate, CFG);
    if Reserve(s.pool, CFG.policy, [p], map[p := UNUSED], req, NOON).1.Reserved? {
      F.ReserveGrants(s.pool, CFG.policy, [p], map[p := UNUSED], req, NOON);
    }
  }

  lemma ControlAtNoon(s: Mux, p: string)
    requires s.backends == [] && s.routes.control.None? && s.controlLease.None? && s.pool == EMPTY_POOL
    ensures FromNoon(MoveControl(s, Fine(p), NOON, CFG).0.pool)
  {
    var (s1, lease) := Take(s, Some(CONTROL_KEY), false, Fine(p), NOON, CFG);
    TakenAtNoon(s, p, Some(CONTROL_KEY), false);
    TakeOnly(s, p, Some(CONTROL_KEY), false);
    AdmitNew(s1, lease.value);
  }

  lemma GreetedAtNoon(p: string)
    ensures FromNoon(ClientLine(Start(EMPTY_POOL), Hello(), Fine(p), NOON, CFG).pool)
  {
    var s := Start(EMPTY_POOL);
    ControlAtNoon(s, p);
    FirstInitialize(s, p, IdInt(1));
    var t := MoveControl(s, Fine(p), NOON, CFG).0;
    assert ClientLine(s, Hello(), Fine(p), NOON, CFG) == Written(t, Reply(IdInt(1), InitialResult(p)));
  }

  lemma OtherIsGranted(pool: PoolState, p: string)
    requires p !in pool.health
    ensures Reserve(pool, CFG.policy, [p], map[p := UNUSED], OtherReserves(p).req, NEXT_DAY).1.Reserved?
  {
    OnlyCandidate(Prune(pool, CFG.policy, NEXT_DAY), p, NEXT_DAY);
  }

  lemma DayIsMinded(p: string, e1: MuxEvent, e2: MuxEvent)
    requires e1 == Client(Hello(), Fine(p), NOON) && e2 == Foreign(OtherReserves(p))
    ensures MuxRuns.MindedRun(EMPTY_POOL, [e1, e2], CFG) && MuxRuns.NeverLoses(EMPTY_POOL, [e1, e2], CFG)
  {
    assert [e1, e2][..1] == [e1];
    GreetingIsAllowed(p);
  }

  lemma TwoSteps(e1: MuxEvent, e2: MuxEvent)
    ensures States(EMPTY_POOL, [e1, e2], CFG) == Step(Step(Start(EMPTY_POOL), e1, CFG), e2, CFG)
  {
    assert [e1, e2][..1] == [e1] && [e1][..0] == [];
    assert States(EMPTY_POOL, [e1], CFG) == Step(Start(EMPTY_POOL), e1, CFG);
  }

  lemma DayEnds(p: string, e1: MuxEvent, e2: MuxEvent)
    requires e1 == Client(Hello(), Fine(p), NOON) && e2 == Foreign(OtherReserves(p))
    ensures var s := States(EMPTY_POOL, [e1, e2], CFG);
      s.controlLease.Some? && s.backends == [(p, true)] && Ours(s.pool.leases, CFG) == multiset{}
  {
    TwoSteps(e1, e2);
    AfterHello(p);
    GreetedAtNoon(p);
    PrunedNextDay(ClientLine(Start(EMPTY_POOL), Hello(), Fine(p), NOON, CFG), p);
  }

  lemma PrunedNextDay(s: Mux, p: string)
    requires FromNoon(s.pool) && p !in s.pool.health
    ensures var t := Step(s, Foreign(OtherReserves(p)), CFG);
      && t.controlLease == s.controlLease && t.backends == s.backends
      && Ours(t.pool.leases, CFG) == multiset{}
  {
    NoonIsPruned(s, p);
  }

  /**
   * The control lease is never renewed: when the server has held it for a day, the next reservation of another
   * process prunes it, and the server goes on holding a lease that the pool does not have. Nothing else went wrong.
   */
  lemma DayOldLeaseIsPruned(p: string)
    ensures var es := [Client(Hello(), Fine(p), NOON), Foreign(OtherReserves(p))];
      var s := States(EMPTY_POOL, es, CFG);
      && MuxRuns.MindedRun(EMPTY_POOL, es, CFG) && MuxRuns.NeverLoses(EMPTY_POOL, es, CFG)
      && s.controlLease.Some? && s.backends == [(p, true)]
      && Ours(s.pool.leases, CFG) == multiset{} && !Conserved(s, CFG)
  {
    var e1, e2 := Client(Hello(), Fine(p), NOON), Foreign(OtherReserves(p));
    DayIsMinded(p, e1, e2);
    DayEnds(p, e1, e2);
    LeaseIsMissing(States(EMPTY_POOL, [e1, e2], CFG));
  }

  lemma NoonIsPruned(s: Mux, p: string)
    requires FromNoon(s.pool) && p !in s.pool.health
    ensures Ours(Apply(CFG.policy, s.pool, OtherReserves(p)).leases, CFG) == multiset{}
  {
    var e := OtherReserves(p);
    OtherIsGranted(s.pool, p);
    F.ReserveGrants(s.pool, CFG.policy, e.profiles, e.usages, e.req, e.w);
    var (after, r) := Reserve(s.pool, CFG.policy, e.profiles, e.usages, e.req, e.w);
    HeadIsMember(LiveLeases(s.pool.leases, CFG.policy, NEXT_DAY));
    assert LiveLeases(s.pool.leases, CFG.policy, NEXT_DAY) == [];
    assert after.leases == [] + [r.lease];
    OursAppend([], r.lease, CFG);
  }

  lemma LeaseIsMissing(s: Mux)
    requires s.controlLease.Some? && Ours(s.pool.leases, CFG) == multiset{}
    ensures !Conserved(s, CFG)
  {
    var id := s.controlLease.value.lease;
    assert Held(s)[id] > 0;
  }

  // ---------------------------------------------------------------- a fan-out that breaks

  function ListThreads(): ClientMessage {
    ClientMessage(IdInt(2), Verb("thread/list"), None, "")
  }

  lemma ListStops(s: Mux, p: string)
    requires Greeted(s, p)
    ensures HandleGlobal(s, "thread/list", IdInt(2), Fine(p), NOON, CFG) == FanOut(s, IdInt(2), Fine(p))
    ensures FanOutBreaks(s, "thread/list", Fine(p), NOON, CFG)
    ensures var t := FanOut(s, IdInt(2), Fine(p)).0;
      && t == s.(aggs := [Aggregate(IdInt(2), 1, [])], aggPending := t.aggPending)
      && |t.aggPending| == 1 && t.aggPending[0].0.0 == p && t.aggPending[0].1 == 0
  {
    assert s.backends[..0] == [];
    assert RunningBackends(s.backends) == [p];
    assert Running(s, p);
    assert Controlled(s, Fine(p), NOON, CFG) == (s, true);
    var key := ListKey(IdInt(2), 0, p);
    assert Registered([], [p], IdInt(2), 0, 0) == [];
    assert Registered([], [p], IdInt(2), 0, 1) == [(key, 0)];
  }

  lemma HeadIsMember<T>(s: seq<T>)
    ensures s == [] || s[0] in s
  {
  }

  /** The fan-out's one share fails with its backend, which finishes it. */
  lemma LossFinishes(s: Mux, p: string, e: (Key, nat))
    requires Has(s.backends, p) && s.pending == [] && s.aggPending == [e] && e.0.0 == p && e.1 == 0
    requires |s.aggs| == 1 && s.aggs[0].expected == 1
    ensures InFlight(Retire(s, p, NOON, CFG), s.aggs[0].client) == 0
  {
    var (kept, after, _) := FailAggregates(s.aggPending, s.aggs, p);
    FailAggregatesCount(s.aggPending, s.aggs, p, 0);
    FailAggregatesKeeps(s.aggPending, s.aggs, p);
    assert [e][..0] == [];
    assert KeysOf([e], 0) == 1;
    HeadIsMember(kept);
    assert kept == [];
    assert after[..0] == [];
    assert after[0].expected == 0;
    var t := Retire(s, p, NOON, CFG);
    assert t.pending == FailPending([], p).0 && t.aggs == after;
    assert PendingFor(t.pending, s.aggs[0].client) == 0;
    assert FanOutsFor(after, s.aggs[0].client) == 0;
  }

  lemma ThreeSteps(e1: MuxEvent, e2: MuxEvent, e3: MuxEvent)
    ensures States(EMPTY_POOL, [e1, e2, e3], CFG) == Step(Step(Step(Start(EMPTY_POOL), e1, CFG), e2, CFG), e3, CFG)
  {
    assert [e1, e2, e3][..2] == [e1, e2] && [e1, e2][..1] == [e1] && [e1][..0] == [];
    assert States(EMPTY_POOL, [e1], CFG) == Step(Start(EMPTY_POOL), e1, CFG);
    assert States(EMPTY_POOL, [e1, e2], CFG) == Step(Step(Start(EMPTY_POOL), e1, CFG), e2, CFG);
  }

  /** A thread/list whose first write fails is answered with an error, and again once that backend is lost. */
  lemma BrokenListIsAnsweredTwice(p: string)
    ensures var es := [
        Client(Hello(), Fine(p), NOON), Client(ListThreads(), Fine(p), NOON), Lost(p, NOON)];
      Replies(States(EMPTY_POOL, es, CFG).out, IdInt(2)) == 2
  {
    ThreeSteps(Client(Hello(), Fine(p), NOON), Client(ListThreads(), Fine(p), NOON), Lost(p, NOON));
    AfterHello(p);
    var s1 := ClientLine(Start(EMPTY_POOL), Hello(), Fine(p), NOON, CFG);
    var s2 := ClientLine(s1, ListThreads(), Fine(p), NOON, CFG);
    BrokenListCounts(s1, p);
    BrokenListState(s1, p);
    RetireKeepsTotal(s2, p, NOON, CFG, IdInt(2));
    LossFinishes(s2, p, s2.aggPending[0]);
  }

  lemma BrokenListCounts(s: Mux, p: string)
    requires Greeted(s, p) && s.out == [Reply(IdInt(1), InitialResult(p))]
    ensures Total(ClientLine(s, ListThreads(), Fine(p), NOON, CFG), IdInt(2)) == 2
  {
    ListStops(s, p);
    RequestCounts(s, ListThreads(), Fine(p), NOON, CFG, IdInt(2));
    assert s.out[..0] == [];
    assert Replies(s.out, IdInt(2)) == 0 && PendingFor(s.pending, IdInt(2)) == 0 && FanOutsFor(s.aggs, IdInt(2)) == 0;
  }

  lemma BrokenListState(s: Mux, p: string)
    requires Greeted(s, p)
    ensures var t := ClientLine(s, ListThreads(), Fine(p), NOON, CFG);
      && t.backends == s.backends && t.pending == [] && t.aggs == [Aggregate(IdInt(2), 1, [])]
      && |t.aggPending| == 1 && t.aggPending[0].0.0 == p && t.aggPending[0].1 == 0
  {
    ListStops(s, p);
    var m := ListThreads();
    assert PlanRequest(s.routes, "thread/list", None, IdInt(2)) == (s.routes, PlanAggregate);
    assert s.(routes := s.routes) == s;
    assert HandleOther(s, "thread/list", m, Fine(p), NOON, CFG) == FanOut(s, IdInt(2), Fine(p));
  }
}
