/**
 * Where answers are expected. The backend a request is in flight at is the one the route table expects its answer
 * from, unless the request moved to another backend after it was planned: then the answer will be misrouted.
 */
module MuxRouting {
  import opened Wrappers
  import opened Dicts
  import opened Pool
  import opened Router
  import opened Multiplexer
  import opened ReplyLaw

  predicate RoutedRight(s: Mux) {
    forall e :: e in s.pending && e.0.1 in s.routes.pendingRequests ==> s.routes.pendingRequests[e.0.1] == e.0.0
  }

  /** Some pending requests may be gone; nothing else is expected elsewhere. */
  predicate Shrunk(s: Mux, t: Mux) {
    (forall e :: e in t.pending ==> e in s.pending) && t.routes.pendingRequests == s.routes.pendingRequests
  }

  /** At most one request was added, at this backend. */
  predicate Placed(s: Mux, t: Mux, p: string, id: Id) {
    && (forall e :: e in t.pending ==> e in s.pending || e.0 == MessageKey(p, id))
    && t.routes.pendingRequests == s.routes.pendingRequests
  }

  lemma ShrunkRight(s: Mux, t: Mux)
    requires RoutedRight(s) && Shrunk(s, t)
    ensures RoutedRight(t)
  {
  }

  lemma RetireShrinks(s: Mux, p: string, w: World, cfg: Config)
    ensures Shrunk(s, Retire(s, p, w, cfg))
  {
    FailPendingKeeps(s.pending, p);
  }

  lemma EnsureShrinks(s: Mux, p: string, starts: bool, w: World, cfg: Config)
    ensures Shrunk(s, Ensure(s, p, starts, w, cfg).0)
  {
    RetireShrinks(s, p, w, cfg);
  }

  lemma SelectShrinks(s: Mux, routeKey: Option<string>, migrate: bool, luck: Luck, w: World, cfg: Config)
    ensures Shrunk(s, Select(s, routeKey, migrate, luck, w, cfg).0)
  {
    var pool, p, pool' := SelectIsEnsure(s, routeKey, migrate, luck, w, cfg);
    EnsureShrinks(s.(pool := pool), p, luck.starts, w, cfg);
  }

  lemma MoveControlShrinks(s: Mux, luck: Luck, w: World, cfg: Config)
    ensures Shrunk(s, MoveControl(s, luck, w, cfg).0)
  {
    var s1 := MoveControlIsSelect(s, luck, w, cfg);
    SelectShrinks(s1, Some(CONTROL_KEY), s.routes.control.Some?, luck, w, cfg);
    MoveControlRoutes(s, luck, w, cfg);
  }

  lemma MoveControlRoutes(s: Mux, luck: Luck, w: World, cfg: Config)
    ensures MoveControl(s, luck, w, cfg).0.routes.pendingRequests == s.routes.pendingRequests
  {
    var s1 := if s.controlLease.Some? then Freed(s, Some(s.controlLease.value.lease)).(controlLease := None) else s;
    SelectShrinks(s1, Some(CONTROL_KEY), s.routes.control.Some?, luck, w, cfg);
  }

  lemma ReachShrinks(s: Mux, p: string, luck: Luck, w: World, cfg: Config)
    ensures Shrunk(s, Reach(s, p, luck, w, cfg).0)
  {
    EnsureShrinks(if luck.dies then Died(s, p) else s, p, luck.restarts, w, cfg);
  }

  lemma WritePlaces(s: Mux, p: string, id: Id, lease: Option<nat>, track: bool, luck: Luck, w: World, cfg: Config)
    requires track && id != IdNull ==> Fresh(s, id)
    ensures var (t, ok) := Write(s, p, id, lease, track, luck, w, cfg);
      if ok && track then Placed(s, t, p, id) else Shrunk(s, t)
  {
    if track && id != IdNull {
      TrackedAdds(s, p, id, lease, id);
      assert Untracked(Tracked(s, p, id, lease), p, id) == s;
      assert Get(s.pending, MessageKey(p, id)).None?;
    }
    RetireShrinks(Freed(s, lease), p, w, cfg);
  }

  lemma SendPlaces(s: Mux, p: string, id: Id, lease: Option<nat>, track: bool, luck: Luck, w: World, cfg: Config)
    requires track && id != IdNull ==> Fresh(s, id)
    ensures var (t, ok) := Send(s, p, id, lease, track, luck, w, cfg);
      if ok && track then Placed(s, t, p, id) else Shrunk(s, t)
  {
    ReachShrinks(s, p, luck, w, cfg);
    var (s1, up) := Reach(s, p, luck, w, cfg);
    if up {
      if track && id != IdNull {
        ReachKeepsFresh(s, p, luck, w, cfg, id);
      }
      WritePlaces(s1, p, id, lease, track, luck, w, cfg);
    }
  }

  /** After a request with a new id: routing is right, and at most that id was added to the expected answers. */
  predicate StillRight(s: Mux, t: Mux, id: Id) {
    RoutedRight(t) && t.routes.pendingRequests.Keys <= s.routes.pendingRequests.Keys + {IdKey(id)}
  }

  predicate NewId(s: Mux, id: Id) {
    id != IdNull && Fresh(s, id) && IdKey(id) !in s.routes.pendingRequests
  }

  /** A request sent where its answer is expected, or expected nowhere. */
  lemma SendRight(s: Mux, p: string, id: Id, lease: Option<nat>, luck: Luck, w: World, cfg: Config)
    requires RoutedRight(s) && Fresh(s, id)
    requires IdKey(id) in s.routes.pendingRequests ==> s.routes.pendingRequests[IdKey(id)] == p
    ensures var t := Send(s, p, id, lease, true, luck, w, cfg).0;
      RoutedRight(t) && t.routes.pendingRequests == s.routes.pendingRequests
  {
    SendPlaces(s, p, id, lease, true, luck, w, cfg);
  }

  lemma GlobalRight(s: Mux, verb: string, id: Id, luck: Luck, w: World, cfg: Config)
    requires RoutedRight(s) && NewId(s, id)
    ensures StillRight(s, HandleGlobal(s, verb, id, luck, w, cfg).0, id)
  {
    MoveControlShrinks(s, luck, w, cfg);
    MoveControlKeepsFresh(s, luck, w, cfg, id);
    var (s1, ok) := Controlled(s, luck, w, cfg);
    ShrunkRight(s, s1);
    if ok && s1.routes.control.Some? {
      if verb != "thread/list" || RunningBackends(s1.backends) == [] {
        SendRight(s1, s1.routes.control.value, id, None, luck, w, cfg);
      }
    }
  }

  lemma InitializeRight(s: Mux, id: Id, luck: Luck, w: World, cfg: Config)
    requires RoutedRight(s)
    ensures StillRight(s, HandleInitialize(s, id, luck, w, cfg).0, id)
  {
    MoveControlShrinks(s, luck, w, cfg);
    var (s1, ok) := InitialControl(s, luck, w, cfg);
    ShrunkRight(s, s1);
    if ok && s1.routes.control.Some? {
      ReachShrinks(s1, s1.routes.control.value, luck, w, cfg);
      ShrunkRight(s1, Reach(s1, s1.routes.control.value, luck, w, cfg).0);
    }
  }

  lemma StartRight(s: Mux, id: Id, luck: Luck, w: World, cfg: Config)
    requires RoutedRight(s) && NewId(s, id)
    ensures StillRight(s, HandleStart(s, id, luck, w, cfg).0, id)
  {
    SelectShrinks(s, None, false, luck, w, cfg);
    SelectKeepsFresh(s, None, false, luck, w, cfg, id);
    var (s1, lease) := Select(s, None, false, luck, w, cfg);
    ShrunkRight(s, s1);
    if lease.Some? {
      var s2 := s1.(routes := Remember(s1.routes, id, lease.value.profile));
      SendRight(s2, lease.value.profile, id, Some(lease.value.id), luck, w, cfg);
    }
  }

  lemma UnroutedRight(s: Mux, id: Id, luck: Luck, w: World, cfg: Config)
    requires RoutedRight(s) && NewId(s, id)
    ensures StillRight(s, HandleUnrouted(s, id, luck, w, cfg).0, id)
  {
    SelectShrinks(s, None, false, luck, w, cfg);
    SelectKeepsFresh(s, None, false, luck, w, cfg, id);
    var (s1, lease) := Select(s, None, false, luck, w, cfg);
    ShrunkRight(s, s1);
    if lease.Some? {
      SendRight(s1, lease.value.profile, id, Some(lease.value.id), luck, w, cfg);
    }
  }

  /** The request was planned for p, and is in flight at another backend. */
  predicate Moves(s: Mux, p: string, routeKey: string, id: Id, luck: Luck, w: World, cfg: Config) {
    var s1 := if Running(s, p) then s else s.(pool := MarkFailure(s.pool, cfg.policy, p, "process", None, w));
    var (s2, lease) := Select(s1, Some(routeKey), true, luck, w, cfg);
    lease.Some? && lease.value.profile != p && HandleMigrated(s, p, routeKey, id, luck, w, cfg).1
  }

  lemma MigratedRight(s: Mux, p: string, routeKey: string, id: Id, luck: Luck, w: World, cfg: Config)
    requires RoutedRight(s) && Fresh(s, id) && id != IdNull
    requires IdKey(id) in s.routes.pendingRequests && s.routes.pendingRequests[IdKey(id)] == p
    requires !Moves(s, p, routeKey, id, luck, w, cfg)
    ensures var t := HandleMigrated(s, p, routeKey, id, luck, w, cfg).0;
      RoutedRight(t) && t.routes.pendingRequests == s.routes.pendingRequests
  {
    var s1 := if Running(s, p) then s else s.(pool := MarkFailure(s.pool, cfg.policy, p, "process", None, w));
    SelectShrinks(s1, Some(routeKey), true, luck, w, cfg);
    SelectKeepsFresh(s1, Some(routeKey), true, luck, w, cfg, id);
    var (s2, lease) := Select(s1, Some(routeKey), true, luck, w, cfg);
    ShrunkRight(s1, s2);
    if lease.Some? {
      var q := lease.value.profile;
      var s3 := s2.(routes := BindRoute(s2.routes, routeKey, q));
      SendPlaces(s3, q, id, Some(lease.value.id), true, luck, w, cfg);
    }
  }

  /** The guard of the code that moves a thread, and a move that ends elsewhere. */
  predicate Migrates(s: Mux, m: ClientMessage, luck: Luck, w: World, cfg: Config) {
    && m.verb.Verb? && NamesThread(m.verb.name)
    && var (routes, plan) := PlanRequest(s.routes, m.verb.name, m.thread, m.id);
       var s1 := s.(routes := routes);
       && plan.PlanBackend? && plan.backend.Some? && plan.routeKey.Some?
       && !(Running(s1, plan.backend.value) && BackendHealthy(s1, plan.backend.value, w))
       && Moves(s1, plan.backend.value, plan.routeKey.value, m.id, luck, w, cfg)
  }

  lemma OtherRight(s: Mux, m: ClientMessage, luck: Luck, w: World, cfg: Config)
    requires RoutedRight(s) && NewId(s, m.id) && m.verb.Verb? && !Migrates(s, m, luck, w, cfg)
    ensures StillRight(s, HandleOther(s, m.verb.name, m, luck, w, cfg).0, m.id)
  {
    var (routes, plan) := PlanRequest(s.routes, m.verb.name, m.thread, m.id);
    var s1 := s.(routes := routes);
    assert RoutedRight(s1) && Fresh(s1, m.id);
    match plan
    case PlanAggregate => GlobalRight(s1, m.verb.name, m.id, luck, w, cfg);
    case PlanSelect => StartRight(s1, m.id, luck, w, cfg);
    case PlanBackend(p, routeKey) =>
      if p.None? {
        UnroutedRight(s1, m.id, luck, w, cfg);
      } else if routeKey.None? || (Running(s1, p.value) && BackendHealthy(s1, p.value, w)) {
        SendRight(s1, p.value, m.id, None, luck, w, cfg);
      } else {
        MigratedRight(s1, p.value, routeKey.value, m.id, luck, w, cfg);
      }
    case _ =>
  }

  lemma RequestRight(s: Mux, m: ClientMessage, luck: Luck, w: World, cfg: Config)
    requires RoutedRight(s) && NewId(s, m.id) && IsRequest(s, m) && !Migrates(s, m, luck, w, cfg)
    ensures StillRight(s, ClientLine(s, m, luck, w, cfg), m.id)
  {
    if m.verb.Verb? {
      var verb := m.verb.name;
      if verb == "initialize" {
        InitializeRight(s, m.id, luck, w, cfg);
      } else if verb == "initialized" {
      } else if verb in GLOBAL_METHODS && verb != "thread/list" {
        GlobalRight(s, verb, m.id, luck, w, cfg);
      } else if verb == "thread/start" {
        StartRight(s, m.id, luck, w, cfg);
      } else {
        OtherRight(s, m, luck, w, cfg);
      }
    }
  }

  lemma AnswerRight(s: Mux, m: ClientMessage, luck: Luck, w: World, cfg: Config)
    requires RoutedRight(s) && !IsRequest(s, m)
    ensures Shrunk(s, ClientLine(s, m, luck, w, cfg))
  {
    if IsServerAnswer(s, m) {
      var (routes, request) := RouteResponse(s.routes, m.id.s);
      SendPlaces(s.(routes := routes), request.value.backend, request.value.original, None, false, luck, w, cfg);
    }
  }

  /** Backend messages add no expected answer, and keep the routing right. */
  lemma BackendRight(s: Mux, p: string, m: BackendMessage, w: World, cfg: Config)
    requires RoutedRight(s)
    ensures var t := BackendLine(s, p, m, w, cfg);
      RoutedRight(t) && t.routes.pendingRequests.Keys <= s.routes.pendingRequests.Keys
  {
    match m
    case Answered(r) => AnsweredRight(s, p, r, w, cfg);
    case Calls(id, body) =>
    case Notifies(started, body) =>
  }

  lemma AnsweredRight(s: Mux, p: string, r: Response, w: World, cfg: Config)
    requires RoutedRight(s)
    ensures var t := BackendLine(s, p, Answered(r), w, cfg);
      RoutedRight(t) && t.routes.pendingRequests.Keys <= s.routes.pendingRequests.Keys
  {
    if Has(s.backends, p) && !Has(s.aggPending, MessageKey(p, r.id)) {
      AnsweredDirectly(s, p, r, w, cfg);
    }
  }

  lemma AnsweredDirectly(s: Mux, p: string, r: Response, w: World, cfg: Config)
    requires RoutedRight(s) && Has(s.backends, p) && !Has(s.aggPending, MessageKey(p, r.id))
    ensures var t := BackendLine(s, p, Answered(r), w, cfg);
      RoutedRight(t) && t.routes.pendingRequests.Keys <= s.routes.pendingRequests.Keys
  {
    var (routes, expected) := RecordResponse(s.routes, p, r.id, r.thread);
    var s1 := Untracked(s, p, r.id).(routes := routes);
    assert RoutedRight(s1);
    var t := BackendLine(s, p, Answered(r), w, cfg);
    if expected {
      assert t.routes == s1.routes && t.pending == s1.pending;
    } else {
      RetireShrinks(s1, p, w, cfg);
    }
  }

  lemma ReachedRuns(s: Mux, p: string, luck: Luck, w: World, cfg: Config)
    requires Reach(s, p, luck, w, cfg).1
    ensures Running(Reach(s, p, luck, w, cfg).0, p)
  {
    var s1 := if luck.dies then Died(s, p) else s;
    GetPut(Retire(s1, p, w, cfg).backends, p, true, p);
  }

  /** A request that moved is misrouted as soon as it is in flight. */
  lemma MovedIsMisrouted(
    s: Mux, p: string, routeKey: string, id: Id, luck: Luck, w: World, cfg: Config) returns (q: string)
    requires Fresh(s, id) && id != IdNull && UniqueKeys(s.pending)
    requires IdKey(id) in s.routes.pendingRequests && s.routes.pendingRequests[IdKey(id)] == p
    requires Moves(s, p, routeKey, id, luck, w, cfg)
    ensures var t := HandleMigrated(s, p, routeKey, id, luck, w, cfg).0;
      Has(t.backends, q) && Has(t.pending, MessageKey(q, id)) && (!Has(t.aggPending,
        MessageKey(q, id)) ==> Misrouted(t, q, id))
  {
    var s1 := if Running(s, p) then s else s.(pool := MarkFailure(s.pool, cfg.policy, p, "process", None, w));
    SelectShrinks(s1, Some(routeKey), true, luck, w, cfg);
    SelectKeepsFresh(s1, Some(routeKey), true, luck, w, cfg, id);
    var (s2, lease) := Select(s1, Some(routeKey), true, luck, w, cfg);
    q := lease.value.profile;
    var s3 := s2.(routes := BindRoute(s2.routes, routeKey, q));
    ReachShrinks(s3, q, luck, w, cfg);
    ReachKeepsFresh(s3, q, luck, w, cfg, id);
    var s4 := Reach(s3, q, luck, w, cfg).0;
    GetPut(s4.pending, MessageKey(q, id), Pending(id, Some(lease.value.id)), MessageKey(q, id));
    ReachedRuns(s3, q, luck, w, cfg);
  }
}
