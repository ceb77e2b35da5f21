/**
 * What every step of the multiplexer keeps, whatever happens outside: dictionary keys that match their entries,
 * fan-out keys that name their fan-out, and a control lease that names the registered control backend.
 */
module MuxStructure {
  import opened Wrappers
  import opened Text
  import opened Dicts
  import opened Pool
  import opened Router
  import opened Multiplexer
  import opened ReplyLaw

  // ---------------------------------------------------------------- the invariant

  predicate KeysUnique(s: Mux) {
    UniqueKeys(s.backends) && UniqueKeys(s.pending) && UniqueKeys(s.aggPending)
  }

  predicate IsListKey(key: Key, client: Id, n: nat) {
    key == ListKey(client, n, key.0)
  }

  /** The entry's key is one of the ids its fan-out has sent. */
  ghost predicate Keyed(e: (Key, nat), aggs: seq<Aggregate>) {
    e.1 < |aggs| && exists n: nat :: IsListKey(e.0, aggs[e.1].client, n)
  }

  ghost predicate ListKeyed(aggPending: Dict<Key, nat>, aggs: seq<Aggregate>) {
    forall e :: e in aggPending ==> Keyed(e, aggs)
  }

  /** The control lease is held for the registered control backend. */
  predicate ControlHeld(s: Mux) {
    s.controlLease.Some? ==>
      s.routes.control == Some(s.controlLease.value.profile) && Has(s.backends, s.controlLease.value.profile)
  }

  ghost predicate Wf(s: Mux) {
    KeysUnique(s) && KeyedById(s) && ListKeyed(s.aggPending, s.aggs) && ControlHeld(s)
  }

  /** The number of keys under which answers for fan-out i are still expected. */
  function KeysOf(aggPending: Dict<Key, nat>, i: nat): nat {
    if aggPending == [] then 0
    else KeysOf(aggPending[..|aggPending| - 1], i) + if aggPending[|aggPending| - 1].1 == i then 1 else 0
  }

  /** Every fan-out expects as many answers as it has keys, so it can and will be finished. */
  predicate Counted(aggPending: Dict<Key, nat>, aggs: seq<Aggregate>) {
    forall i :: 0 <= i < |aggs| ==> aggs[i].expected == KeysOf(aggPending, i)
  }

  /** The answers a fan-out expects beyond its keys: these can never come. */
  function Surplus(aggPending: Dict<Key, nat>, aggs: seq<Aggregate>, i: nat): int
    requires i < |aggs|
  {
    aggs[i].expected - KeysOf(aggPending, i)
  }

  /** No fan-out of an earlier state is nearer to its end than its keys can bring it. */
  predicate NoneNearer(s: Mux, aggPending: Dict<Key, nat>, aggs: seq<Aggregate>) {
    && |s.aggs| <= |aggs|
    && forall i :: 0 <= i < |s.aggs| ==>
      aggs[i].client == s.aggs[i].client && Surplus(aggPending, aggs, i) >= Surplus(s.aggPending, s.aggs, i)
  }

  /**
   * What else is said of a state: nothing, that its fan-outs are counted, or that since an earlier state nothing sent
   * was taken back and no surplus of a fan-out has shrunk.
   */
  datatype Counting = Unchecked | Exact | Since(earlier: Mux)

  predicate CountedAs(c: Counting, aggPending: Dict<Key, nat>, aggs: seq<Aggregate>, out: seq<Output>) {
    match c
    case Unchecked => true
    case Exact => Counted(aggPending, aggs)
    case Since(s) => s.out <= out && NoneNearer(s, aggPending, aggs)
  }

  /** A fan-out has no more keys than answers to come; when it expects no more, it has been answered with them all. */
  predicate Finished(a: Aggregate, keys: nat, out: seq<Output>) {
    a.expected >= keys && (a.expected == 0 ==> ListReply(a) in out)
  }

  predicate Reported(aggPending: Dict<Key, nat>, aggs: seq<Aggregate>, out: seq<Output>) {
    forall i :: 0 <= i < |aggs| ==> Finished(aggs[i], KeysOf(aggPending, i), out)
  }

  /**
   * The structure, and the fan-outs; that they are counted needs fresh ids and writes that succeed, the rest nothing.
   */
  ghost predicate Sound(s: Mux, c: Counting) {
    Wf(s) && Reported(s.aggPending, s.aggs, s.out) && CountedAs(c, s.aggPending, s.aggs, s.out)
  }

  /** Sound does not look at the pool or any route but the control backend, and allows more output. */
  lemma WfLooksAt(s: Mux, t: Mux, c: Counting)
    requires Sound(s, c) && s.out <= t.out
    requires t == s.(pool := t.pool, out := t.out, routes := t.routes) && t.routes.control == s.routes.control
    ensures Sound(t, c)
  {
  }

  // ---------------------------------------------------------------- losing a backend

  lemma {:induction false} FailPendingUnique(pending: Dict<Key, Pending>, p: string)
    requires UniqueKeys(pending)
    ensures UniqueKeys(FailPending(pending, p).0)
  {
    if pending != [] {
      FailPendingUnique(pending[..|pending| - 1], p);
      FailPendingKeeps(pending[..|pending| - 1], p);
    }
  }

  lemma KeysOfAppend(aggPending: Dict<Key, nat>, e: (Key, nat), i: nat)
    ensures KeysOf(aggPending + [e], i) == KeysOf(aggPending, i) + if e.1 == i then 1 else 0
  {
    assert (aggPending + [e])[..|aggPending|] == aggPending;
  }

  lemma {:induction false} FailAggregatesKeeps(aggPending: Dict<Key, nat>, aggs: seq<Aggregate>, p: string)
    ensures var (kept, after, _) := FailAggregates(aggPending, aggs, p);
      && (forall e :: e in kept <==> e in aggPending && e.0.0 != p)
      && (UniqueKeys(aggPending) ==> UniqueKeys(kept))
      && (forall i :: 0 <= i < |aggs| ==> after[i].client == aggs[i].client)
  {
    if aggPending != [] {
      FailAggregatesKeeps(aggPending[..|aggPending| - 1], aggs, p);
      assert UniqueKeys(aggPending) ==> UniqueKeys(aggPending[..|aggPending| - 1]);
    }
  }

  /** A fan-out expects one answer less for each key it loses. */
  lemma {:induction false} FailAggregatesCount(aggPending: Dict<Key, nat>, aggs: seq<Aggregate>, p: string, i: nat)
    requires i < |aggs|
    ensures var (kept, after, _) := FailAggregates(aggPending, aggs, p);
      after[i].expected - KeysOf(kept, i) == aggs[i].expected - KeysOf(aggPending, i)
  {
    if aggPending != [] {
      var front, last := aggPending[..|aggPending| - 1], aggPending[|aggPending| - 1];
      FailAggregatesCount(front, aggs, p, i);
      KeysOfAppend(FailAggregates(front, aggs, p).0, last, i);
    }
  }

  lemma FailAggregatesCounted(
    aggPending: Dict<Key, nat>, aggs: seq<Aggregate>, p: string, c: Counting, out: seq<Output>, more: seq<Output>)
    requires CountedAs(c, aggPending, aggs, out) && out <= more
    ensures CountedAs(c, FailAggregates(aggPending, aggs, p).0, FailAggregates(aggPending, aggs, p).1, more)
  {
    var (kept, after, _) := FailAggregates(aggPending, aggs, p);
    FailAggregatesKeeps(aggPending, aggs, p);
    forall i | 0 <= i < |after|
      ensures after[i].expected - KeysOf(kept, i) == aggs[i].expected - KeysOf(aggPending, i)
    {
      FailAggregatesCount(aggPending, aggs, p, i);
    }
  }

  /** A share that fails reports the fan-outs it finishes, and touches no other. */
  lemma {:induction false} FailAggregatesReports(aggPending: Dict<Key, nat>, aggs: seq<Aggregate>, p: string, i: nat)
    requires i < |aggs| && aggs[i].expected >= KeysOf(aggPending, i)
    ensures var (_, after, replies) := FailAggregates(aggPending, aggs, p);
      (after[i].expected == 0 ==> after[i] == aggs[i] || ListReply(after[i]) in replies)
  {
    if aggPending != [] {
      var front, last := aggPending[..|aggPending| - 1], aggPending[|aggPending| - 1];
      FailAggregatesReports(front, aggs, p, i);
      FailAggregatesCount(front, aggs, p, i);
      var (kept, mid, replies) := FailAggregates(front, aggs, p);
      if last.0.0 == p && last.1 == i {
        assert mid[i].expected > KeysOf(kept, i);
      }
    }
  }

  lemma FailBackendReported(s: Mux, p: string)
    requires Reported(s.aggPending, s.aggs, s.out)
    ensures var t := FailBackend(s, p); Reported(t.aggPending, t.aggs, t.out)
  {
    var t := FailBackend(s, p);
    forall i | 0 <= i < |t.aggs|
      ensures Finished(t.aggs[i], KeysOf(t.aggPending, i), t.out)
    {
      assert Finished(s.aggs[i], KeysOf(s.aggPending, i), s.out);
      FailAggregatesCount(s.aggPending, s.aggs, p, i);
      FailAggregatesReports(s.aggPending, s.aggs, p, i);
    }
  }

  lemma FailBackendWf(s: Mux, p: string, c: Counting)
    requires Sound(s, c)
    ensures Sound(FailBackend(s, p), c)
  {
    FailPendingUnique(s.pending, p);
    FailPendingKeeps(s.pending, p);
    FailAggregatesListKeyed(s.aggPending, s.aggs, p);
    FailAggregatesCounted(s.aggPending, s.aggs, p, c, s.out, FailBackend(s, p).out);
    FailBackendReported(s, p);
  }

  lemma FailAggregatesListKeyed(aggPending: Dict<Key, nat>, aggs: seq<Aggregate>, p: string)
    requires ListKeyed(aggPending, aggs) && UniqueKeys(aggPending)
    ensures var (kept, after, _) := FailAggregates(aggPending, aggs, p); ListKeyed(kept, after) && UniqueKeys(kept)
  {
    FailAggregatesKeeps(aggPending, aggs, p);
    var (kept, after, _) := FailAggregates(aggPending, aggs, p);
    forall e | e in kept ensures Keyed(e, after) {
      var n: nat :| IsListKey(e.0, aggs[e.1].client, n);
      assert IsListKey(e.0, after[e.1].client, n);
    }
  }

  /** A backend leaves the table, with the control lease if it was in control. */
  function Dropped(s: Mux, p: string): Mux {
    s.(backends := Pop(s.backends, p), controlLease := if s.routes.control == Some(p) then None else s.controlLease)
  }

  lemma DroppedWf(s: Mux, p: string, c: Counting)
    requires Sound(s, c)
    ensures Sound(Dropped(s, p), c) && !Has(Dropped(s, p).backends, p)
  {
    if s.controlLease.Some? {
      GetPop(s.backends, p, s.controlLease.value.profile);
    }
  }

  lemma RetireIs(s: Mux, p: string, w: World, cfg: Config) returns (pool: PoolState)
    requires Has(s.backends, p)
    ensures Retire(s, p, w, cfg) == FailBackend(Dropped(s, p).(pool := pool), p)
  {
    var s1 := s.(backends := Pop(s.backends, p));
    var s2 := if s1.routes.control == Some(p) && s1.controlLease.Some?
              then Freed(s1, Some(s1.controlLease.value.lease)).(controlLease := None) else s1;
    pool := MarkFailure(s2.pool, cfg.policy, p, "process", None, w);
  }

  lemma RetireWf(s: Mux, p: string, w: World, cfg: Config, c: Counting)
    requires Sound(s, c)
    ensures Sound(Retire(s, p, w, cfg), c)
    ensures !Has(Retire(s, p, w, cfg).backends, p)
    ensures Retire(s, p, w, cfg).routes == s.routes
    ensures s.controlLease.None? ==> Retire(s, p, w, cfg).controlLease.None?
  {
    if Has(s.backends, p) {
      var pool := RetireIs(s, p, w, cfg);
      DroppedWf(s, p, c);
      var s1 := Dropped(s, p).(pool := pool);
      WfLooksAt(Dropped(s, p), s1, c);
      FailBackendWf(s1, p, c);
    }
  }

  // ---------------------------------------------------------------- reaching a backend

  lemma RegisterWf(s: Mux, p: string, up: bool, c: Counting)
    requires Sound(s, c)
    ensures Sound(s.(backends := Put(s.backends, p, up)), c)
    ensures Get(Put(s.backends, p, up), p) == Some(up)
  {
    GetPut(s.backends, p, up, p);
    if s.controlLease.Some? {
      GetPut(s.backends, p, up, s.controlLease.value.profile);
    }
  }

  lemma EnsureWf(s: Mux, p: string, starts: bool, w: World, cfg: Config, c: Counting)
    requires Sound(s, c)
    ensures var (t, up) := Ensure(s, p, starts, w, cfg);
      && Sound(t, c) && t.routes == s.routes && (up ==> Running(t, p))
      && (s.controlLease.None? ==> t.controlLease.None?)
  {
    RetireWf(s, p, w, cfg, c);
    RegisterWf(Retire(s, p, w, cfg), p, true, c);
  }

  lemma SelectWf(s: Mux, routeKey: Option<string>, migrate: bool, luck: Luck, w: World, cfg: Config, c: Counting)
    requires Sound(s, c)
    ensures var (t, lease) := Select(s, routeKey, migrate, luck, w, cfg);
      && Sound(t, c) && t.routes == s.routes && (lease.Some? ==> Running(t, lease.value.profile))
      && (s.controlLease.None? ==> t.controlLease.None?)
  {
    var (s1, lease) := Take(s, routeKey, migrate, luck, w, cfg);
    TakeWf(s, routeKey, migrate, luck, w, cfg, c);
    if lease.Some? {
      AdmitWf(s1, lease.value, luck.starts, w, cfg, c);
    }
  }

  lemma TakeWf(s: Mux, routeKey: Option<string>, migrate: bool, luck: Luck, w: World, cfg: Config, c: Counting)
    requires Sound(s, c)
    ensures var t := Take(s, routeKey, migrate, luck, w, cfg).0; Sound(t, c) && t == s.(pool := t.pool)
  {
    var t := Take(s, routeKey, migrate, luck, w, cfg).0;
    WfLooksAt(s, s.(pool := t.pool), c);
  }

  lemma AdmitWf(s: Mux, lease: PoolLease, starts: bool, w: World, cfg: Config, c: Counting)
    requires Sound(s, c)
    ensures var (t, kept) := Admit(s, lease, starts, w, cfg);
      && Sound(t, c) && t.routes == s.routes && (kept.Some? ==> kept.value == lease && Running(t, lease.profile))
      && (s.controlLease.None? ==> t.controlLease.None?)
  {
    EnsureWf(s, lease.profile, starts, w, cfg, c);
    var t := Ensure(s, lease.profile, starts, w, cfg).0;
    WfLooksAt(t, Freed(t, Some(lease.id)), c);
  }

  lemma ReachWf(s: Mux, p: string, luck: Luck, w: World, cfg: Config, c: Counting)
    requires Sound(s, c)
    ensures var (t, up) := Reach(s, p, luck, w, cfg); Sound(t, c) && t.routes == s.routes
  {
    RegisterWf(s, p, false, c);
    EnsureWf(if luck.dies then Died(s, p) else s, p, luck.restarts, w, cfg, c);
  }

  lemma TrackedWf(s: Mux, p: string, id: Id, lease: Option<nat>, c: Counting)
    requires Sound(s, c)
    ensures Sound(Tracked(s, p, id, lease), c) && Sound(Untracked(Tracked(s, p, id, lease), p, id), c)
  {
    var t := Tracked(s, p, id, lease);
    forall e | e in t.pending ensures e.0.1 == IdKey(e.1.client) {
      assert e in s.pending || e == (MessageKey(p, id), Pending(id, lease));
    }
  }

  lemma WriteWf(
    s: Mux, p: string, id: Id, lease: Option<nat>, track: bool, luck: Luck, w: World, cfg: Config, c: Counting)
    requires Sound(s, c)
    ensures var t := Write(s, p, id, lease, track, luck, w, cfg).0; Sound(t, c) && t.routes == s.routes
  {
    TrackedWf(s, p, id, lease, c);
    var s1 := if track && id != IdNull then Untracked(Tracked(s, p, id, lease), p, id) else s;
    WfLooksAt(s1, Freed(s1, lease), c);
    RetireWf(Freed(s1, lease), p, w, cfg, c);
  }

  lemma SendWf(
    s: Mux, p: string, id: Id, lease: Option<nat>, track: bool, luck: Luck, w: World, cfg: Config, c: Counting)
    requires Sound(s, c)
    ensures var t := Send(s, p, id, lease, track, luck, w, cfg).0; Sound(t, c) && t.routes == s.routes
  {
    ReachWf(s, p, luck, w, cfg, c);
    WriteWf(Reach(s, p, luck, w, cfg).0, p, id, lease, track, luck, w, cfg, c);
  }

  // ---------------------------------------------------------------- client messages

  lemma MoveControlWf(s: Mux, luck: Luck, w: World, cfg: Config, c: Counting)
    requires Sound(s, c)
    ensures var (t, ok) := MoveControl(s, luck, w, cfg);
      Sound(t, c) && t.routes == s.routes.(control := t.routes.control) && (ok ==> t.controlLease.Some?)
  {
    var s1 := if s.controlLease.Some? then Freed(s, Some(s.controlLease.value.lease)).(controlLease := None) else s;
    assert Sound(s1, c);
    SelectWf(s1, Some(CONTROL_KEY), s.routes.control.Some?, luck, w, cfg, c);
  }

  lemma ControlledWf(s: Mux, luck: Luck, w: World, cfg: Config, c: Counting)
    requires Sound(s, c)
    ensures Sound(Controlled(s, luck, w, cfg).0, c) && Sound(InitialControl(s, luck, w, cfg).0, c)
  {
    MoveControlWf(s, luck, w, cfg, c);
  }

  lemma GreetWf(s: Mux, p: string, id: Id, luck: Luck, w: World, cfg: Config, c: Counting)
    requires Sound(s, c)
    ensures var s2 := Reach(s, p, luck, w, cfg).0;
      Sound(s2, c) && Sound(Written(s2, Reply(id, InitialResult(p))), c)
  {
    ReachWf(s, p, luck, w, cfg, c);
    var s2 := Reach(s, p, luck, w, cfg).0;
    WfLooksAt(s2, Written(s2, Reply(id, InitialResult(p))), c);
  }

  lemma InitializeWf(s: Mux, id: Id, luck: Luck, w: World, cfg: Config, c: Counting)
    requires Sound(s, c)
    ensures Sound(HandleInitialize(s, id, luck, w, cfg).0, c)
  {
    ControlledWf(s, luck, w, cfg, c);
    var (s1, ok) := InitialControl(s, luck, w, cfg);
    if ok && s1.routes.control.Some? {
      GreetWf(s1, s1.routes.control.value, id, luck, w, cfg, c);
    }
  }

  lemma {:induction false} OnlyRegisteredRun(backends: Dict<string, bool>, p: string)
    requires Get(backends, p).None?
    ensures p !in RunningBackends(backends)
  {
    if backends != [] {
      OnlyRegisteredRun(backends[..|backends| - 1], p);
    }
  }

  predicate AllDistinct(ps: seq<string>) {
    forall i, j :: 0 <= i < j < |ps| ==> ps[i] != ps[j]
  }

  /** Each running backend is asked once. */
  lemma {:induction false} RunningAreDistinct(backends: Dict<string, bool>)
    requires UniqueKeys(backends)
    ensures AllDistinct(RunningBackends(backends))
  {
    if backends != [] {
      var front, last := backends[..|backends| - 1], backends[|backends| - 1];
      RunningAreDistinct(front);
      GetFront(backends, last.0);
      OnlyRegisteredRun(front, last.0);
    }
  }

  /** One of the first n entries of a fan-out. */
  predicate OneOf(e: (Key, nat), running: seq<string>, id: Id, agg: nat, n: nat)
    requires n <= |running|
  {
    exists k: nat :: k < n && e == (ListKey(id, k, running[k]), agg)
  }

  lemma {:induction false} RegisteredUnique(aggPending: Dict<Key, nat>, running: seq<string>, id: Id, agg: nat, n: nat)
    requires n <= |running| && UniqueKeys(aggPending)
    ensures UniqueKeys(Registered(aggPending, running, id, agg, n))
  {
    if n > 0 {
      RegisteredUnique(aggPending, running, id, agg, n - 1);
    }
  }

  lemma PutEntries(d: Dict<Key, nat>, key: Key, agg: nat, e: (Key, nat))
    requires e in Put(d, key, agg)
    ensures e in d || e == (key, agg)
  {
  }

  lemma {:induction false} RegisteredKeys(
    aggPending: Dict<Key, nat>, running: seq<string>, id: Id, agg: nat, n: nat, e: (Key, nat))
    requires n <= |running| && e in Registered(aggPending, running, id, agg, n)
    ensures e in aggPending || OneOf(e, running, id, agg, n)
  {
    if n > 0 {
      var before := Registered(aggPending, running, id, agg, n - 1);
      PutEntries(before, ListKey(id, n - 1, running[n - 1]), agg, e);
      if e in before {
        RegisteredKeys(aggPending, running, id, agg, n - 1, e);
      }
    }
  }

  lemma KeyedLonger(e: (Key, nat), aggs: seq<Aggregate>, a: Aggregate)
    requires Keyed(e, aggs)
    ensures Keyed(e, aggs + [a])
  {
    var n: nat :| IsListKey(e.0, aggs[e.1].client, n);
    assert IsListKey(e.0, (aggs + [a])[e.1].client, n);
  }

  lemma OneOfKeyed(e: (Key, nat), running: seq<string>, id: Id, n: nat, aggs: seq<Aggregate>, a: Aggregate)
    requires n <= |running| && OneOf(e, running, id, |aggs|, n) && a.client == id
    ensures Keyed(e, aggs + [a])
  {
    var k: nat :| k < n && e == (ListKey(id, k, running[k]), |aggs|);
    assert IsListKey(e.0, (aggs + [a])[e.1].client, k);
  }

  lemma FanOutListKeyed(s: Mux, id: Id, luck: Luck)
    requires ListKeyed(s.aggPending, s.aggs)
    ensures var t := FanOut(s, id, luck).0; ListKeyed(t.aggPending, t.aggs)
  {
    var running := RunningBackends(s.backends);
    var asked := if luck.listed < |running| then luck.listed + 1 else |running|;
    var t, a := FanOut(s, id, luck).0, Aggregate(id, |running|, []);
    forall e | e in t.aggPending ensures Keyed(e, t.aggs) {
      RegisteredKeys(s.aggPending, running, id, |s.aggs|, asked, e);
      if e in s.aggPending {
        KeyedLonger(e, s.aggs, a);
      } else {
        OneOfKeyed(e, running, id, asked, s.aggs, a);
      }
    }
  }

  /** A list key tells the text of its client id. */
  lemma ListKeyTellsClient(a: Id, m: nat, b: Id, n: nat, p: string)
    requires ListKey(a, m, p) == ListKey(b, n, p)
    ensures Str(a) == Str(b)
  {
    var u, v := Str(a) + ":" + Decimal(m), Str(b) + ":" + Decimal(n);
    IdKeyInjective(ListId(a, m, p), ListId(b, n, p));
    CancelPrefix("pool-list:", u + (":" + p), v + (":" + p));
    assert |u| == |v|;
    assert u == (u + (":" + p))[..|u|] && v == (v + (":" + p))[..|u|];
    SplitAtLastColon(Str(a), Decimal(m), Str(b), Decimal(n));
  }

  lemma {:induction false} ExpectedIsInFlight(aggs: seq<Aggregate>, i: nat)
    requires i < |aggs| && aggs[i].expected > 0
    ensures FanOutsFor(aggs, aggs[i].client) > 0
  {
    if i < |aggs| - 1 {
      ExpectedIsInFlight(aggs[..|aggs| - 1], i);
    }
  }

  lemma {:induction false} KeyCounts(aggPending: Dict<Key, nat>, e: (Key, nat))
    requires e in aggPending
    ensures KeysOf(aggPending, e.1) > 0
  {
    if aggPending[|aggPending| - 1] != e {
      KeyCounts(aggPending[..|aggPending| - 1], e);
    }
  }

  /** No request whose id reads the same is answered or in flight. */
  ghost predicate TextUnused(s: Mux, id: Id) {
    forall y :: Str(y) == Str(id) ==> Total(s, y) == 0
  }

  lemma KeyedTellsText(key: Key, id: Id, k: nat, e: (Key, nat), aggs: seq<Aggregate>)
    requires key == ListKey(id, k, key.0) && e.0 == key && Keyed(e, aggs)
    ensures Str(aggs[e.1].client) == Str(id)
  {
    var n: nat :| IsListKey(e.0, aggs[e.1].client, n);
    ListKeyTellsClient(id, k, aggs[e.1].client, n, key.0);
  }

  lemma ExpectedAnswer(s: Mux, e: (Key, nat))
    requires e in s.aggPending && e.1 < |s.aggs| && Counted(s.aggPending, s.aggs)
    ensures Total(s, s.aggs[e.1].client) > 0
  {
    KeyCounts(s.aggPending, e);
    ExpectedIsInFlight(s.aggs, e.1);
  }

  lemma ListKeysAreNew(s: Mux, id: Id, k: nat, p: string)
    requires Sound(s, Exact) && TextUnused(s, id)
    ensures Get(s.aggPending, ListKey(id, k, p)).None?
  {
    var key := ListKey(id, k, p);
    forall j | 0 <= j < |s.aggPending| ensures s.aggPending[j].0 != key {
      var e := s.aggPending[j];
      assert e in s.aggPending && Keyed(e, s.aggs);
      ExpectedAnswer(s, e);
      if e.0 == key {
        KeyedTellsText(key, id, k, e, s.aggs);
      }
    }
  }

  /** The next key of a fan-out is not in the table yet. */
  lemma NextKeyIsNew(s: Mux, running: seq<string>, id: Id, n: nat)
    requires Sound(s, Exact) && TextUnused(s, id)
    requires n < |running| && AllDistinct(running)
    ensures NewAt(s.aggPending, running, id, |s.aggs|, n)
  {
    var before, key := Registered(s.aggPending, running, id, |s.aggs|, n), ListKey(id, n, running[n]);
    ListKeysAreNew(s, id, n, running[n]);
    forall j | 0 <= j < |before| ensures before[j].0 != key {
      RegisteredKeys(s.aggPending, running, id, |s.aggs|, n, before[j]);
      if before[j] !in s.aggPending {
        assert exists k: nat :: k < n && before[j].0.0 == running[k];
      }
    }
  }

  predicate NewAt(aggPending: Dict<Key, nat>, running: seq<string>, id: Id, agg: nat, n: nat)
    requires n < |running|
  {
    Get(Registered(aggPending, running, id, agg, n), ListKey(id, n, running[n])).None?
  }

  lemma {:induction false} RegisteredCount(
    aggPending: Dict<Key, nat>, running: seq<string>, id: Id, agg: nat, n: nat, i: nat)
    requires n <= |running| && forall m: nat :: m < n ==> NewAt(aggPending, running, id, agg, m)
    ensures KeysOf(Registered(aggPending, running, id, agg, n), i) == KeysOf(aggPending, i) + if i == agg then n else 0
  {
    if n > 0 {
      var before, key := Registered(aggPending, running, id, agg, n - 1), ListKey(id, n - 1, running[n - 1]);
      RegisteredCount(aggPending, running, id, agg, n - 1, i);
      assert NewAt(aggPending, running, id, agg, n - 1);
      PutNew(before, key, agg);
      KeysOfAppend(before, (key, agg), i);
    }
  }

  lemma PutNew(d: Dict<Key, nat>, key: Key, agg: nat)
    requires Get(d, key).None?
    ensures Put(d, key, agg) == d + [(key, agg)]
  {
  }

  lemma {:induction false} NoKeysYet(aggPending: Dict<Key, nat>, i: nat)
    requires forall e :: e in aggPending ==> e.1 != i
    ensures KeysOf(aggPending, i) == 0
  {
    if aggPending != [] {
      NoKeysYet(aggPending[..|aggPending| - 1], i);
    }
  }

  lemma FanOutCounted(s: Mux, id: Id, luck: Luck)
    requires Sound(s, Exact) && TextUnused(s, id) && luck.listed >= |RunningBackends(s.backends)|
    ensures var t := FanOut(s, id, luck).0; Counted(t.aggPending, t.aggs)
  {
    var running := RunningBackends(s.backends);
    var t := FanOut(s, id, luck).0;
    var n := |running|;
    RunningAreDistinct(s.backends);
    forall m: nat | m < n ensures NewAt(s.aggPending, running, id, |s.aggs|, m) {
      NextKeyIsNew(s, running, id, m);
    }
    NoKeysYet(s.aggPending, |s.aggs|);
    assert t.aggs == s.aggs + [Aggregate(id, n, [])];
    assert t.aggPending == Registered(s.aggPending, running, id, |s.aggs|, n);
    forall i | 0 <= i < |t.aggs| ensures t.aggs[i].expected == KeysOf(t.aggPending, i) {
      RegisteredCount(s.aggPending, running, id, |s.aggs|, n, i);
      assert i < |s.aggs| ==> t.aggs[i] == s.aggs[i];
    }
  }

  lemma {:induction false} KeysOfReplace(aggPending: Dict<Key, nat>, key: Key, agg: nat, i: nat)
    requires i != agg
    ensures KeysOf(Replace(aggPending, key, agg), i) <= KeysOf(aggPending, i)
  {
    if aggPending != [] {
      var front, last := aggPending[..|aggPending| - 1], aggPending[|aggPending| - 1];
      KeysOfReplace(front, key, agg, i);
      KeysOfAppend(Replace(front, key, agg), if last.0 == key then (key, agg) else last, i);
    }
  }

  /** A key is in the table once, so giving it to a fan-out adds at most one. */
  lemma {:induction false} KeysOfReplaceOne(aggPending: Dict<Key, nat>, key: Key, agg: nat)
    requires UniqueKeys(aggPending)
    ensures KeysOf(Replace(aggPending, key, agg), agg)
      <= KeysOf(aggPending, agg) + if Has(aggPending, key) then 1 else 0
  {
    if aggPending != [] {
      var front, last := aggPending[..|aggPending| - 1], aggPending[|aggPending| - 1];
      KeysOfReplaceOne(front, key, agg);
      KeysOfAppend(Replace(front, key, agg), if last.0 == key then (key, agg) else last, agg);
      GetFront(aggPending, key);
    }
  }

  lemma KeysOfPutOne(aggPending: Dict<Key, nat>, key: Key, agg: nat)
    requires UniqueKeys(aggPending)
    ensures KeysOf(Put(aggPending, key, agg), agg) <= KeysOf(aggPending, agg) + 1
  {
    if Get(aggPending, key).None? {
      KeysOfAppend(aggPending, (key, agg), agg);
    } else {
      KeysOfReplaceOne(aggPending, key, agg);
    }
  }

  lemma KeysOfPut(aggPending: Dict<Key, nat>, key: Key, agg: nat, i: nat)
    requires i != agg
    ensures KeysOf(Put(aggPending, key, agg), i) <= KeysOf(aggPending, i)
  {
    if Get(aggPending, key).None? {
      KeysOfAppend(aggPending, (key, agg), i);
    } else {
      KeysOfReplace(aggPending, key, agg, i);
    }
  }

  lemma {:induction false} RegisteredTakes(
    aggPending: Dict<Key, nat>, running: seq<string>, id: Id, agg: nat, n: nat, i: nat)
    requires n <= |running| && i != agg
    ensures KeysOf(Registered(aggPending, running, id, agg, n), i) <= KeysOf(aggPending, i)
  {
    if n > 0 {
      RegisteredTakes(aggPending, running, id, agg, n - 1, i);
      KeysOfPut(
        Registered(aggPending, running, id, agg, n - 1), ListKey(id, n - 1, running[n - 1]), agg, i);
    }
  }

  /** A new fan-out gives no key to an earlier one; it may take one that reads the same. */
  lemma FanOutNotNearer(s: Mux, id: Id, luck: Luck, earlier: Mux)
    requires NoneNearer(earlier, s.aggPending, s.aggs)
    ensures var t := FanOut(s, id, luck).0; NoneNearer(earlier, t.aggPending, t.aggs)
  {
    var running := RunningBackends(s.backends);
    var asked := if luck.listed < |running| then luck.listed + 1 else |running|;
    forall i: nat | i < |s.aggs| { RegisteredTakes(s.aggPending, running, id, |s.aggs|, asked, i); }
    NoneNearerMore(
      earlier, s.aggPending, s.aggs, Registered(s.aggPending, running, id, |s.aggs|, asked),
      Aggregate(id, |running|, []));
  }

  lemma NoneNearerMore(
    earlier: Mux, before: Dict<Key, nat>, aggs: seq<Aggregate>, after: Dict<Key, nat>, a: Aggregate)
    requires NoneNearer(earlier, before, aggs) && forall i: nat :: i < |aggs| ==> KeysOf(after, i) <= KeysOf(before, i)
    ensures NoneNearer(earlier, after, aggs + [a])
  {
    forall i | 0 <= i < |earlier.aggs|
      ensures (aggs + [a])[i].client == earlier.aggs[i].client
        && Surplus(after, aggs + [a], i) >= Surplus(earlier.aggPending, earlier.aggs, i)
    {
      assert (aggs + [a])[i] == aggs[i];
      assert Surplus(before, aggs, i) >= Surplus(earlier.aggPending, earlier.aggs, i);
    }
  }

  lemma {:induction false} RegisteredGives(
    aggPending: Dict<Key, nat>, running: seq<string>, id: Id, agg: nat, n: nat)
    requires n <= |running| && KeysOf(aggPending, agg) == 0 && UniqueKeys(aggPending)
    ensures UniqueKeys(Registered(aggPending, running, id, agg, n))
    ensures KeysOf(Registered(aggPending, running, id, agg, n), agg) <= n
  {
    if n > 0 {
      RegisteredGives(aggPending, running, id, agg, n - 1);
      KeysOfPutOne(Registered(aggPending, running, id, agg, n - 1), ListKey(id, n - 1, running[n - 1]), agg);
    }
  }

  lemma ReportedMore(
    before: Dict<Key, nat>, aggs: seq<Aggregate>, out: seq<Output>, after: Dict<Key, nat>, a: Aggregate)
    requires Reported(before, aggs, out) && forall i: nat :: i < |aggs| ==> KeysOf(after, i) <= KeysOf(before, i)
    requires KeysOf(after, |aggs|) <= a.expected && a.expected > 0
    ensures Reported(after, aggs + [a], out)
  {
    forall i | 0 <= i < |aggs + [a]| ensures Finished((aggs + [a])[i], KeysOf(after, i), out) {
      if i < |aggs| {
        assert Finished(aggs[i], KeysOf(before, i), out);
      }
    }
  }

  lemma RegisteredReported(
    aggPending: Dict<Key, nat>, aggs: seq<Aggregate>, out: seq<Output>, running: seq<string>, id: Id, n: nat)
    requires Reported(aggPending, aggs, out) && ListKeyed(aggPending, aggs) && UniqueKeys(aggPending)
    requires running != [] && n <= |running|
    ensures Reported(
      Registered(aggPending, running, id, |aggs|, n), aggs + [Aggregate(id, |running|, [])], out)
  {
    NoKeysYet(aggPending, |aggs|);
    RegisteredGives(aggPending, running, id, |aggs|, n);
    forall i: nat | i < |aggs| { RegisteredTakes(aggPending, running, id, |aggs|, n, i); }
    ReportedMore(aggPending, aggs, out, Registered(aggPending, running, id, |aggs|, n), Aggregate(id, |running|, []));
  }

  lemma FanOutReported(s: Mux, id: Id, luck: Luck)
    requires Reported(s.aggPending, s.aggs, s.out) && ListKeyed(s.aggPending, s.aggs) && UniqueKeys(s.aggPending)
    requires RunningBackends(s.backends) != []
    ensures var t := FanOut(s, id, luck).0; Reported(t.aggPending, t.aggs, t.out)
  {
    var running := RunningBackends(s.backends);
    RegisteredReported(
      s.aggPending, s.aggs, s.out, running, id, if luck.listed < |running| then luck.listed + 1 else |running|);
  }

  lemma FanOutWf(s: Mux, id: Id, luck: Luck, c: Counting)
    requires Sound(s, c)
    requires c.Exact? ==> TextUnused(s, id) && luck.listed >= |RunningBackends(s.backends)|
    requires RunningBackends(s.backends) != []
    ensures Sound(FanOut(s, id, luck).0, c)
  {
    FanOutReported(s, id, luck);
    var running := RunningBackends(s.backends);
    RegisteredUnique(s.aggPending, running, id, |s.aggs|, if luck.listed < |running| then luck.listed + 1
      else |running|);
    FanOutListKeyed(s, id, luck);
    if c.Exact? {
      FanOutCounted(s, id, luck);
    } else if c.Since? {
      FanOutNotNearer(s, id, luck, c.earlier);
    }
  }

  lemma GlobalWf(s: Mux, verb: string, id: Id, luck: Luck, w: World, cfg: Config, c: Counting)
    requires Sound(s, c)
    requires c.Exact? ==> TextUnused(s, id) && !FanOutBreaks(s, verb, luck, w, cfg)
    ensures Sound(HandleGlobal(s, verb, id, luck, w, cfg).0, c)
  {
    ControlledWf(s, luck, w, cfg, c);
    var (s1, ok) := Controlled(s, luck, w, cfg);
    if ok && s1.routes.control.Some? {
      if verb != "thread/list" || RunningBackends(s1.backends) == [] {
        SendWf(s1, s1.routes.control.value, id, None, true, luck, w, cfg, c);
      } else {
        forall y { MoveControlAdds(s, luck, w, cfg, y); }
        FanOutWf(s1, id, luck, c);
      }
    }
  }

  lemma MigratedWf(s: Mux, p: string, routeKey: string, id: Id, luck: Luck, w: World, cfg: Config, c: Counting)
    requires Sound(s, c)
    ensures Sound(HandleMigrated(s, p, routeKey, id, luck, w, cfg).0, c)
  {
    var s1 := if Running(s, p) then s else s.(pool := MarkFailure(s.pool, cfg.policy, p, "process", None, w));
    WfLooksAt(s, s1, c);
    SelectWf(s1, Some(routeKey), true, luck, w, cfg, c);
    var (s2, lease) := Select(s1, Some(routeKey), true, luck, w, cfg);
    if lease.Some? {
      var q := lease.value.profile;
      var s3 := s2.(routes := BindRoute(s2.routes, routeKey, q));
      WfLooksAt(s2, s3, c);
      SendWf(s3, q, id, Some(lease.value.id), true, luck, w, cfg, c);
    }
  }

  lemma RoutedWf(s: Mux, p: string, routeKey: Option<string>, id: Id, luck: Luck, w: World, cfg: Config, c: Counting)
    requires Sound(s, c)
    ensures Sound(HandleRouted(s, p, routeKey, id, luck, w, cfg).0, c)
  {
    if routeKey.None? || (Running(s, p) && BackendHealthy(s, p, w)) {
      SendWf(s, p, id, None, true, luck, w, cfg, c);
    } else {
      MigratedWf(s, p, routeKey.value, id, luck, w, cfg, c);
    }
  }

  lemma StartWf(s: Mux, id: Id, luck: Luck, w: World, cfg: Config, c: Counting)
    requires Sound(s, c)
    ensures Sound(HandleStart(s, id, luck, w, cfg).0, c) && Sound(HandleUnrouted(s, id, luck, w, cfg).0, c)
  {
    SelectWf(s, None, false, luck, w, cfg, c);
    var (s1, lease) := Select(s, None, false, luck, w, cfg);
    if lease.Some? {
      var p := lease.value.profile;
      var s2 := s1.(routes := Remember(s1.routes, id, p));
      WfLooksAt(s1, s2, c);
      SendWf(s2, p, id, Some(lease.value.id), true, luck, w, cfg, c);
      SendWf(s1, p, id, Some(lease.value.id), true, luck, w, cfg, c);
    }
  }

  lemma PlanWf(s: Mux, verb: string, plan: Plan, id: Id, luck: Luck, w: World, cfg: Config, c: Counting)
    requires Sound(s, c) && !plan.PlanAggregate?
    ensures Sound(HandlePlan(s, verb, plan, id, luck, w, cfg).0, c)
  {
    match plan
    case PlanBackend(p, routeKey) =>
      if p.Some? {
        RoutedWf(s, p.value, routeKey, id, luck, w, cfg, c);
      } else {
        StartWf(s, id, luck, w, cfg, c);
      }
    case PlanSelect => StartWf(s, id, luck, w, cfg, c);
    case _ => WfLooksAt(s, Written(s, Reply(id, ErrorContent(NO_ROUTE))), c);
  }

  lemma PlannedWf(s: Mux, verb: string, m: ClientMessage, luck: Luck, w: World, cfg: Config, c: Counting)
    requires Sound(s, c) && verb != "thread/list"
    ensures Sound(HandleOther(s, verb, m, luck, w, cfg).0, c)
  {
    var (routes, plan) := PlanRequest(s.routes, verb, m.thread, m.id);
    WfLooksAt(s, s.(routes := routes), c);
    PlanWf(s.(routes := routes), verb, plan, m.id, luck, w, cfg, c);
  }

  lemma RequestWf(s: Mux, m: ClientMessage, luck: Luck, w: World, cfg: Config, c: Counting)
    requires Sound(s, c) && IsRequest(s, m) && m.verb.Verb?
    requires c.Exact? ==> IsInitialized(m) || (TextUnused(s, m.id) && !ListBreaks(s, m, luck, w, cfg))
    ensures Sound(HandleClient(s, m, luck, w, cfg).0, c)
  {
    var verb := m.verb.name;
    if verb == "initialize" {
      InitializeWf(s, m.id, luck, w, cfg, c);
    } else if verb == "initialized" {
    } else if verb in GLOBAL_METHODS && verb != "thread/list" {
      GlobalWf(s, verb, m.id, luck, w, cfg, c);
    } else if verb == "thread/start" {
      StartWf(s, m.id, luck, w, cfg, c);
    } else if verb == "thread/list" {
      ListIsGlobal(s, m, luck, w, cfg);
      GlobalWf(s, verb, m.id, luck, w, cfg, c);
    } else {
      PlannedWf(s, verb, m, luck, w, cfg, c);
    }
  }

  lemma ClientWf(s: Mux, m: ClientMessage, luck: Luck, w: World, cfg: Config, c: Counting)
    requires Sound(s, c)
    requires c.Exact? && IsRequest(s, m) ==>
      IsInitialized(m) || (TextUnused(s, m.id) && !ListBreaks(s, m, luck, w, cfg))
    ensures Sound(ClientLine(s, m, luck, w, cfg), c)
  {
    if IsServerAnswer(s, m) {
      var (routes, request) := RouteResponse(s.routes, m.id.s);
      WfLooksAt(s, s.(routes := routes), c);
      SendWf(s.(routes := routes), request.value.backend, request.value.original, None, false, luck, w, cfg, c);
    } else if IsRequest(s, m) && m.verb.Verb? {
      RequestWf(s, m, luck, w, cfg, c);
    }
    var t := HandleClient(s, m, luck, w, cfg).0;
    WfLooksAt(t, Written(t, Reply(m.id, ErrorContent(BACKEND_FAILED))), c);
  }

  // ---------------------------------------------------------------- backend messages

  lemma {:induction false} KeysOfPop(aggPending: Dict<Key, nat>, key: Key, i: nat)
    ensures KeysOf(Pop(aggPending, key), i) == KeysOf(aggPending, i) - if Get(aggPending, key) == Some(i) then 1 else 0
  {
    if aggPending != [] && aggPending[|aggPending| - 1].0 != key {
      KeysOfPop(aggPending[..|aggPending| - 1], key, i);
      KeysOfAppend(Pop(aggPending[..|aggPending| - 1], key), aggPending[|aggPending| - 1], i);
    }
  }

  /** One more response leaves every fan-out with its client. */
  lemma SharedKeyed(aggPending: Dict<Key, nat>, aggs: seq<Aggregate>, key: Key, i: nat, r: Response)
    requires ListKeyed(aggPending, aggs)
    ensures ListKeyed(Pop(aggPending, key), AnswerAggregate(aggs, i, r).0)
  {
    var after := AnswerAggregate(aggs, i, r).0;
    forall e | e in Pop(aggPending, key) ensures Keyed(e, after) {
      assert e in aggPending;
      var n: nat :| IsListKey(e.0, aggs[e.1].client, n);
      assert IsListKey(e.0, after[e.1].client, n);
    }
  }

  lemma SharedCounted(
    aggPending: Dict<Key, nat>, aggs: seq<Aggregate>, key: Key, i: nat, r: Response, c: Counting, out: seq<Output>,
    more: seq<Output>)
    requires UniqueKeys(aggPending) && Get(aggPending, key) == Some(i) && i < |aggs|
    requires CountedAs(c, aggPending, aggs, out) && out <= more
    ensures CountedAs(c, Pop(aggPending, key), AnswerAggregate(aggs, i, r).0, more)
  {
    var after := AnswerAggregate(aggs, i, r).0;
    forall j | 0 <= j < |after|
      ensures after[j].expected - KeysOf(Pop(aggPending, key), j) == aggs[j].expected - KeysOf(aggPending, j)
    {
      KeysOfPop(aggPending, key, j);
    }
  }

  lemma ShareReported(s: Mux, key: Key, r: Response)
    requires UniqueKeys(s.aggPending) && Reported(s.aggPending, s.aggs, s.out) && Has(s.aggPending, key)
    requires Get(s.aggPending, key).value < |s.aggs|
    ensures var t := HandleShare(s, key, Get(s.aggPending, key).value, r); Reported(t.aggPending, t.aggs, t.out)
  {
    var i := Get(s.aggPending, key).value;
    var t := HandleShare(s, key, i, r);
    forall j | 0 <= j < |t.aggs| ensures Finished(t.aggs[j], KeysOf(t.aggPending, j), t.out) {
      assert Finished(s.aggs[j], KeysOf(s.aggPending, j), s.out);
      KeysOfPop(s.aggPending, key, j);
    }
  }

  lemma OtherFanOuts(s: Mux, aggPending: Dict<Key, nat>, aggs: seq<Aggregate>, out: seq<Output>)
    requires Wf(s) && UniqueKeys(aggPending) && ListKeyed(aggPending, aggs)
    ensures Wf(s.(aggPending := aggPending, aggs := aggs, out := out))
  {
  }

  lemma ShareIsKeyed(aggPending: Dict<Key, nat>, aggs: seq<Aggregate>, key: Key)
    requires ListKeyed(aggPending, aggs) && Has(aggPending, key)
    ensures Get(aggPending, key).value < |aggs|
  {
    var i :| 0 <= i < |aggPending| && aggPending[i] == (key, Get(aggPending, key).value);
    var e := aggPending[i];
    assert e in aggPending && Keyed(e, aggs);
  }

  lemma ShareStructure(s: Mux, key: Key, i: nat, r: Response)
    requires Wf(s) && Has(s.aggPending, key)
    ensures Wf(HandleShare(s, key, i, r))
  {
    SharedKeyed(s.aggPending, s.aggs, key, i, r);
    var (aggs, replies) := AnswerAggregate(s.aggs, i, r);
    OtherFanOuts(s, Pop(s.aggPending, key), aggs, s.out + replies);
    assert HandleShare(s, key, i, r) == s.(aggPending := Pop(s.aggPending, key), aggs := aggs, out := s.out + replies);
  }

  lemma ShareWf(s: Mux, key: Key, r: Response, c: Counting)
    requires Sound(s, c) && Has(s.aggPending, key)
    ensures Sound(HandleShare(s, key, Get(s.aggPending, key).value, r), c)
  {
    ShareIsKeyed(s.aggPending, s.aggs, key);
    ShareStructure(s, key, Get(s.aggPending, key).value, r);
    ShareReported(s, key, r);
    var i := Get(s.aggPending, key).value;
    SharedCounted(s.aggPending, s.aggs, key, i, r, c, s.out, HandleShare(s, key, i, r).out);
  }

  /** The first thread bound may fix the control backend, but only when there was none, so no lease names it. */
  lemma BoundWf(s: Mux, routes: Routes, c: Counting)
    requires Sound(s, c) && (s.routes.control.Some? ==> routes.control == s.routes.control)
    ensures Sound(s.(routes := routes), c)
  {
  }

  lemma BackendWf(s: Mux, p: string, m: BackendMessage, w: World, cfg: Config, c: Counting)
    requires Sound(s, c)
    ensures Sound(BackendLine(s, p, m, w, cfg), c)
  {
    match m
    case Answered(r) =>
      var key := MessageKey(p, r.id);
      if Has(s.aggPending, key) {
        ShareWf(s, key, r, c);
      } else {
        var (routes, expected) := RecordResponse(s.routes, p, r.id, r.thread);
        var s1 := Untracked(s, p, r.id);
        assert Sound(s1, c);
        BoundWf(s1, routes, c);
        var s2 := s1.(routes := routes);
        WfLooksAt(s2, Deliver(s2, p, r, LeaseOf(Get(s.pending, key)), w, cfg), c);
        RetireWf(s2, p, w, cfg, c);
      }
    case Calls(id, body) =>
      var (routes, f) := ForwardRequest(s.routes, p, id);
      WfLooksAt(s, Written(s.(routes := routes), ServerCall(f, body)), c);
    case Notifies(started, body) =>
      BoundWf(s, RecordNotification(s.routes, p, started), c);
  }
}
