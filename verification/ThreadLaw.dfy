/** Which backend a thread belongs to, over whole runs, and where its requests go. */
module ThreadLaw {
  import opened Wrappers
  import opened Dicts
  import opened Pool
  import opened Router
  import opened Multiplexer
  import opened ReplyLaw
  import opened MuxRouting
  import opened ControlLaw

  // ---------------------------------------------------------------- the history of a thread

  /** The requests that name a thread. */
  predicate ThreadVerb(verb: string) {
    verb in [
      "thread/fork", "thread/resume", "thread/read", "thread/metadata/update", "thread/goal/set", "thread/goal/get",
      "thread/goal/clear", "thread/compact/start", "thread/rollback", "thread/inject_items", "turn/start", "turn/steer",
      "turn/interrupt"]
  }

  /** The client asks something of this thread. */
  predicate AsksOf(s: Mux, m: ClientMessage, thread: ThreadId) {
    IsRequest(s, m) && m.verb.Verb? && ThreadVerb(m.verb.name) && m.thread == Some(thread)
  }

  /** The backend runs, and its account is healthy. */
  predicate Serves(s: Mux, p: string, w: World) {
    Get(s.backends, p) == Some(true) && HealthEligible(HealthOf(s.pool, p), w.now)
  }

  /** The account newly reserved for a thread whose backend p cannot serve it, if there is one and it comes up. */
  function NewHome(s: Mux, p: string, thread: ThreadId, luck: Luck, w: World, cfg: Config): Option<string> {
    if luck.fetch.None? then None
    else
      var running := Get(s.backends, p) == Some(true);
      var pool := if running then s.pool else MarkFailure(s.pool, cfg.policy, p, "process", None, w);
      var req := ReserveRequest(Some("thread:" + thread), Pid(cfg.pid), true, false);
      var r := Reserve(pool, cfg.policy, luck.fetch.value.profiles, luck.fetch.value.usages, req, w).1;
      if r.Reserved? && (Get(s.backends, r.lease.profile) == Some(true) || luck.starts) then Some(r.lease.profile)
      else None
  }

  /** Where a request of the thread finds it: where it was, or where it has to be moved. */
  function HomeFor(s: Mux, p: string, thread: ThreadId, luck: Luck, w: World, cfg: Config): Option<string> {
    if Serves(s, p, w) then Some(p) else NewHome(s, p, thread, luck, w, cfg)
  }

  /** The backend p answers a request of its own, and says that the answer is about this thread. */
  predicate AnswersFor(s: Mux, p: string, r: Response, thread: ThreadId) {
    && Has(s.backends, p) && r.thread == Some(thread)
    && !Has(s.aggPending, MessageKey(p, r.id)) && !Misrouted(s, p, r.id)
  }

  /** The backend that last answered for the thread, announced it, or had it moved there. */
  function OwnerOf(pool: PoolState, es: seq<MuxEvent>, thread: ThreadId, cfg: Config): Option<string> {
    if es == [] then None
    else
      var front, e := es[..|es| - 1], es[|es| - 1];
      var s, before := States(pool, front, cfg), OwnerOf(pool, front, thread, cfg);
      match e
      case Client(m, luck, w) =>
        if before.None? || !AsksOf(s, m, thread) then before
        else
          var home := HomeFor(s, before.value, thread, luck, w, cfg);
          if home.Some? then home else before
      case Backend(p, Answered(r), _) => if AnswersFor(s, p, r, thread) then Some(p) else before
      case Backend(p, Notifies(started, _), _) =>
        if Has(s.backends, p) && started == Some(thread) then Some(p) else before
      case _ => before
  }

  // ---------------------------------------------------------------- what the table says

  function Bound(s: Mux, thread: ThreadId): Option<string> {
    var key := ThreadRouteKey(thread);
    if key in s.routes.routes then Some(s.routes.routes[key]) else None
  }

  lemma ThreadVerbs(verb: string)
    ensures ThreadVerb(verb) <==> NamesThread(verb)
    ensures ThreadVerb(verb) ==>
      verb != "initialize" && verb != "initialized" && verb != "thread/start" && verb !in GLOBAL_METHODS
  {
  }

  /** A message that is not about a thread binds none. */
  predicate SameBound(s: Mux, t: Mux) {
    t.routes.routes == s.routes.routes
  }

  lemma SendBinds(s: Mux, p: string, id: Id, lease: Option<nat>, track: bool, luck: Luck, w: World, cfg: Config)
    ensures Send(s, p, id, lease, track, luck, w, cfg).0.routes == s.routes
  {
    ReachSamePlace(s, p, luck, w, cfg);
    var s1 := Reach(s, p, luck, w, cfg).0;
    var s2 := if track && id != IdNull then Untracked(Tracked(s1, p, id, lease), p, id) else s1;
    RetireSamePlace(Freed(s2, lease), p, w, cfg);
  }

  lemma SelectBinds(s: Mux, routeKey: Option<string>, migrate: bool, luck: Luck, w: World, cfg: Config)
    ensures Select(s, routeKey, migrate, luck, w, cfg).0.routes == s.routes
  {
    var pool, p, pool' := SelectIsEnsure(s, routeKey, migrate, luck, w, cfg);
    EnsureSamePlace(s.(pool := pool), p, luck.starts, w, cfg);
  }

  lemma GlobalBinds(s: Mux, verb: string, id: Id, luck: Luck, w: World, cfg: Config)
    ensures SameBound(s, HandleGlobal(s, verb, id, luck, w, cfg).0)
  {
    ControlBinds(s, luck, w, cfg);
    var s1 := Controlled(s, luck, w, cfg).0;
    if s1.routes.control.Some? {
      SendBinds(s1, s1.routes.control.value, id, None, true, luck, w, cfg);
    }
  }

  lemma InitializeBinds(s: Mux, id: Id, luck: Luck, w: World, cfg: Config)
    ensures SameBound(s, HandleInitialize(s, id, luck, w, cfg).0)
  {
    ControlBinds(s, luck, w, cfg);
    var s2 := InitialControl(s, luck, w, cfg).0;
    if s2.routes.control.Some? {
      ReachSamePlace(s2, s2.routes.control.value, luck, w, cfg);
    }
  }

  lemma ControlBinds(s: Mux, luck: Luck, w: World, cfg: Config)
    ensures SameBound(s, Controlled(s, luck, w, cfg).0) && SameBound(s, InitialControl(s, luck, w, cfg).0)
  {
    MoveControlPicks(s, luck, w, cfg);
  }

  lemma StartBinds(s: Mux, id: Id, luck: Luck, w: World, cfg: Config)
    ensures SameBound(s, HandleStart(s, id, luck, w, cfg).0) && SameBound(s, HandleUnrouted(s, id, luck, w, cfg).0)
  {
    SelectBinds(s, None, false, luck, w, cfg);
    var (s1, lease) := Select(s, None, false, luck, w, cfg);
    if lease.Some? {
      var p, key := lease.value.profile, Some(lease.value.id);
      SendBinds(s1.(routes := Remember(s1.routes, id, p)), p, id, key, true, luck, w, cfg);
      SendBinds(s1, p, id, key, true, luck, w, cfg);
    }
  }

  // ---------------------------------------------------------------- a request of a thread

  /** The state in which the request is handled: its answer is expected from the backend its thread belongs to. */
  function Planned(s: Mux, id: Id, p: string): Mux {
    s.(routes := Remember(s.routes, id, p))
  }

  lemma PlannedOther(s: Mux, verb: string, m: ClientMessage, thread: ThreadId, luck: Luck, w: World, cfg: Config)
    requires NamesThread(verb) && verb != "initialize" && verb != "initialized" && verb != "thread/start"
    requires m.thread == Some(thread)
    ensures HandleOther(s, verb, m, luck, w, cfg) ==
      if Bound(s, thread).None? then (Written(s, Reply(m.id, ErrorContent(-32004))), true)
      else
        var p := Bound(s, thread).value;
        HandleRouted(Planned(s, m.id, p), p, Some(ThreadRouteKey(thread)), m.id, luck, w, cfg)
  {
    assert s.(routes := s.routes) == s;
  }

  lemma ThreadRequestIs(s: Mux, m: ClientMessage, thread: ThreadId, luck: Luck, w: World, cfg: Config)
    requires AsksOf(s, m, thread)
    ensures HandleClient(s, m, luck, w, cfg) == HandleOther(s, m.verb.name, m, luck, w, cfg)
    ensures HandleClient(s, m, luck, w, cfg) ==
      if Bound(s, thread).None? then (Written(s, Reply(m.id, ErrorContent(-32004))), true)
      else
        var p := Bound(s, thread).value;
        HandleRouted(Planned(s, m.id, p), p, Some(ThreadRouteKey(thread)), m.id, luck, w, cfg)
  {
    var verb := m.verb.name;
    ThreadVerbs(verb);
    assert NamesThread(verb) && verb != "initialize" && verb != "initialized" && verb != "thread/start";
    assert verb !in GLOBAL_METHODS;
    PlannedOther(s, verb, m, thread, luck, w, cfg);
  }

  lemma SelectIsNewHome(s: Mux, p: string, thread: ThreadId, luck: Luck, w: World, cfg: Config)
    ensures var s1 := if Running(s, p) then s else s.(pool := MarkFailure(s.pool, cfg.policy, p, "process", None, w));
      var lease := Select(s1, Some(ThreadRouteKey(thread)), true, luck, w, cfg).1;
      NewHome(s, p, thread, luck, w, cfg) == if lease.Some? then Some(lease.value.profile) else None
  {
  }

  /** Where a request that was planned ends up, and where its thread is bound. */
  lemma RoutedBinds(s: Mux, p: string, thread: ThreadId, id: Id, luck: Luck, w: World, cfg: Config)
    ensures var t := HandleRouted(s, p, Some(ThreadRouteKey(thread)), id, luck, w, cfg).0;
      var home := HomeFor(s, p, thread, luck, w, cfg);
      && t.routes.pendingRequests == s.routes.pendingRequests && t.routes.control == s.routes.control
      && t.routes.routes == (if home.None? || Serves(s, p, w) then s.routes.routes
                             else s.routes.routes[ThreadRouteKey(thread) := home.value])
  {
    var key := ThreadRouteKey(thread);
    if Serves(s, p, w) {
      SendBinds(s, p, id, None, true, luck, w, cfg);
    } else {
      var s1 := if Running(s, p) then s else s.(pool := MarkFailure(s.pool, cfg.policy, p, "process", None, w));
      SelectIsNewHome(s, p, thread, luck, w, cfg);
      SelectBinds(s1, Some(key), true, luck, w, cfg);
      var (s2, lease) := Select(s1, Some(key), true, luck, w, cfg);
      if lease.Some? {
        var q := lease.value.profile;
        SendBinds(s2.(routes := BindRoute(s2.routes, key, q)), q, id, Some(lease.value.id), true, luck, w, cfg);
      }
    }
  }

  lemma MovedPlace(s: Mux, p: string, thread: ThreadId, id: Id, luck: Luck, w: World, cfg: Config)
    requires id != IdNull && Fresh(s, id)
    ensures var (t, ok) := HandleMigrated(s, p, ThreadRouteKey(thread), id, luck, w, cfg);
      var home := NewHome(s, p, thread, luck, w, cfg);
      && (forall e :: e in t.pending && e.0.1 == IdKey(id) ==> home == Some(e.0.0))
      && (home.Some? && !luck.dies && luck.written ==> ok && Has(t.pending, MessageKey(home.value, id)))
  {
    var key := ThreadRouteKey(thread);
    var s1 := if Running(s, p) then s else s.(pool := MarkFailure(s.pool, cfg.policy, p, "process", None, w));
    SelectIsNewHome(s, p, thread, luck, w, cfg);
    SelectKeepsFresh(s1, Some(key), true, luck, w, cfg, id);
    var (s2, lease) := Select(s1, Some(key), true, luck, w, cfg);
    if lease.Some? {
      SelectPicks(s1, Some(key), true, luck, w, cfg);
      var q := lease.value.profile;
      SendPlace(s2.(routes := BindRoute(s2.routes, key, q)), q, id, Some(lease.value.id), luck, w, cfg);
    }
  }

  lemma RoutedPlace(s: Mux, p: string, thread: ThreadId, id: Id, luck: Luck, w: World, cfg: Config)
    requires id != IdNull && Fresh(s, id)
    ensures var (t, ok) := HandleRouted(s, p, Some(ThreadRouteKey(thread)), id, luck, w, cfg);
      var home := HomeFor(s, p, thread, luck, w, cfg);
      && (forall e :: e in t.pending && e.0.1 == IdKey(id) ==> home == Some(e.0.0))
      && (home.Some? && !luck.dies && luck.written ==> ok && Has(t.pending, MessageKey(home.value, id)))
  {
    if Serves(s, p, w) {
      SendPlace(s, p, id, None, luck, w, cfg);
    } else {
      MovedPlace(s, p, thread, id, luck, w, cfg);
    }
  }

  // ---------------------------------------------------------------- every step

  /** What a client message does to the binding of a thread: it moves only for a request of its own. */
  function BoundAfter(s: Mux, m: ClientMessage, thread: ThreadId, luck: Luck, w: World, cfg: Config): Option<string> {
    var before := Bound(s, thread);
    if before.None? || !AsksOf(s, m, thread) then before
    else
      var home := HomeFor(s, before.value, thread, luck, w, cfg);
      if home.Some? then home else before
  }

  lemma KeysDiffer(a: ThreadId, b: ThreadId)
    requires a != b
    ensures ThreadRouteKey(a) != ThreadRouteKey(b)
  {
    assert ThreadRouteKey(a)[7..] == a && ThreadRouteKey(b)[7..] == b;
  }

  lemma ThreadRequestBinds(
    s: Mux, m: ClientMessage, asked: ThreadId, thread: ThreadId, luck: Luck, w: World, cfg: Config)
    requires AsksOf(s, m, asked)
    ensures Bound(HandleClient(s, m, luck, w, cfg).0, thread) == BoundAfter(s, m, thread, luck, w, cfg)
  {
    ThreadRequestIs(s, m, asked, luck, w, cfg);
    if Bound(s, asked).Some? {
      PlannedBinds(s, Bound(s, asked).value, m.id, asked, thread, luck, w, cfg);
    }
  }

  lemma PlannedBinds(
    s: Mux, p: string, id: Id, asked: ThreadId, thread: ThreadId, luck: Luck, w: World, cfg: Config)
    ensures var t := HandleRouted(Planned(s, id, p), p, Some(ThreadRouteKey(asked)), id, luck, w, cfg).0;
      var home := HomeFor(s, p, asked, luck, w, cfg);
      Bound(t, thread)
      == if asked == thread && home.Some? && !Serves(s, p, w) then home else Bound(s, thread)
  {
    RoutedBinds(Planned(s, id, p), p, asked, id, luck, w, cfg);
    if asked != thread {
      KeysDiffer(asked, thread);
    }
  }

  lemma UnnamedBinds(s: Mux, verb: string, m: ClientMessage, luck: Luck, w: World, cfg: Config)
    requires !NamesThread(verb) || m.thread.None?
    ensures SameBound(s, HandleOther(s, verb, m, luck, w, cfg).0)
  {
    var (routes, plan) := PlanRequest(s.routes, verb, m.thread, m.id);
    var s1 := s.(routes := routes);
    assert SameBound(s, s1);
    match plan
    case PlanAggregate => GlobalBinds(s1, verb, m.id, luck, w, cfg);
    case PlanSelect => StartBinds(s1, m.id, luck, w, cfg);
    case PlanBackend(p, _) =>
      if p.Some? {
        SendBinds(s1, p.value, m.id, None, true, luck, w, cfg);
      } else {
        StartBinds(s1, m.id, luck, w, cfg);
      }
    case _ =>
  }

  lemma OtherRequestBinds(s: Mux, m: ClientMessage, luck: Luck, w: World, cfg: Config)
    requires IsRequest(s, m) && (m.verb.Verb? && ThreadVerb(m.verb.name) ==> m.thread.None?)
    ensures SameBound(s, HandleClient(s, m, luck, w, cfg).0)
  {
    if m.verb.Verb? {
      var verb := m.verb.name;
      ThreadVerbs(verb);
      if verb == "initialize" {
        InitializeBinds(s, m.id, luck, w, cfg);
      } else if verb == "initialized" {
      } else if verb in GLOBAL_METHODS && verb != "thread/list" {
        GlobalBinds(s, verb, m.id, luck, w, cfg);
      } else if verb == "thread/start" {
        StartBinds(s, m.id, luck, w, cfg);
      } else {
        UnnamedBinds(s, verb, m, luck, w, cfg);
      }
    }
  }

  lemma ClientBinds(s: Mux, m: ClientMessage, thread: ThreadId, luck: Luck, w: World, cfg: Config)
    ensures Bound(ClientLine(s, m, luck, w, cfg), thread) == BoundAfter(s, m, thread, luck, w, cfg)
  {
    if IsServerAnswer(s, m) {
      var (routes, request) := RouteResponse(s.routes, m.id.s);
      SendBinds(
        s.(routes := routes), request.value.backend, request.value.original, None, false, luck, w, cfg);
    } else if IsRequest(s, m) {
      if m.verb.Verb? && ThreadVerb(m.verb.name) && m.thread.Some? {
        ThreadRequestBinds(s, m, m.thread.value, thread, luck, w, cfg);
      } else {
        OtherRequestBinds(s, m, luck, w, cfg);
      }
    }
  }

  lemma BackendBinds(s: Mux, p: string, m: BackendMessage, w: World, cfg: Config, thread: ThreadId)
    ensures Bound(BackendLine(s, p, m, w, cfg), thread) ==
      if !Has(s.backends, p) then Bound(s, thread)
      else match m
        case Answered(r) => if AnswersFor(s, p, r, thread) then Some(p) else Bound(s, thread)
        case Notifies(started, _) => if started == Some(thread) then Some(p) else Bound(s, thread)
        case Calls(_, _) => Bound(s, thread)
  {
    if Has(s.backends, p) {
      match m
      case Answered(r) => AnswerBinds(s, p, r, w, cfg, thread);
      case Notifies(started, _) =>
        if started.Some? && started.value != thread {
          KeysDiffer(started.value, thread);
        }
      case Calls(_, _) =>
    }
  }

  lemma AnswerBinds(s: Mux, p: string, r: Response, w: World, cfg: Config, thread: ThreadId)
    requires Has(s.backends, p)
    ensures Bound(BackendLine(s, p, Answered(r), w, cfg), thread)
      == if AnswersFor(s, p, r, thread) then Some(p) else Bound(s, thread)
  {
    if !Has(s.aggPending, MessageKey(p, r.id)) {
      AnswerRoutes(s, p, r, w, cfg);
      if r.thread.Some? && r.thread.value != thread {
        KeysDiffer(r.thread.value, thread);
      }
    }
  }

  /**
   * An answer that is accepted binds the thread it is about; the first thread bound also decides who is in control.
   */
  lemma AnswerRoutes(s: Mux, p: string, r: Response, w: World, cfg: Config)
    requires Has(s.backends, p) && !Has(s.aggPending, MessageKey(p, r.id))
    ensures var before, after := s.routes, BackendLine(s, p, Answered(r), w, cfg).routes;
      var binds := r.thread.Some? && !Misrouted(s, p, r.id);
      && after.routes == (if binds then before.routes[ThreadRouteKey(r.thread.value) := p] else before.routes)
      && after.control == (if binds && before.control.None? then Some(p) else before.control)
      && after.pendingRequests == before.pendingRequests - {IdKey(r.id)}
  {
    var (routes, expected) := RecordResponse(s.routes, p, r.id, r.thread);
    RetireSamePlace(Untracked(s, p, r.id).(routes := routes), p, w, cfg);
  }

  /** The table holds the history: in every run, a thread is bound to the backend that it belongs to. */
  lemma {:induction false} ThreadsBelong(pool: PoolState, es: seq<MuxEvent>, thread: ThreadId, cfg: Config)
    ensures Bound(States(pool, es, cfg), thread) == OwnerOf(pool, es, thread, cfg)
  {
    if es != [] {
      var front, e := es[..|es| - 1], es[|es| - 1];
      ThreadsBelong(pool, front, thread, cfg);
      var s := States(pool, front, cfg);
      match e
      case Client(m, luck, w) => ClientBinds(s, m, thread, luck, w, cfg);
      case Backend(p, m, w) => BackendBinds(s, p, m, w, cfg, thread);
      case Lost(p, w) => RetireSamePlace(s, p, w, cfg);
      case _ =>
    }
  }

  // ---------------------------------------------------------------- where requests go

  /** Nothing happens but that the client is told that the pool knows no backend for the request. */
  predicate Refused(s: Mux, t: Mux, id: Id) {
    t == s.(out := s.out + [Reply(id, ErrorContent(-32004))])
  }

  /** Only this backend may answer the request. */
  ghost predicate ExpectedFrom(t: Mux, id: Id, p: string) {
    forall x :: !Has(t.aggPending, MessageKey(x, id)) ==> (Misrouted(t, x, id) <==> x != p)
  }

  /** What becomes of a request of a thread, by the history of the thread. */
  ghost predicate ThreadServed(
    s: Mux, t: Mux, m: ClientMessage, owner: Option<string>, thread: ThreadId, luck: Luck, w: World, cfg: Config)
  {
    && (owner.None? <==> Refused(s, t, m.id))
    && (owner.Some? ==>
          var home := HomeFor(s, owner.value, thread, luck, w, cfg);
          && (forall e :: e in t.pending && e.0.1 == IdKey(m.id) ==> home == Some(e.0.0))
          && (home.Some? && !luck.dies && luck.written ==> Has(t.pending, MessageKey(home.value, m.id)))
          && ExpectedFrom(t, m.id, owner.value))
  }

  lemma ServedByTable(s: Mux, m: ClientMessage, thread: ThreadId, luck: Luck, w: World, cfg: Config)
    requires AsksOf(s, m, thread) && NewId(s, m.id)
    ensures ThreadServed(s, ClientLine(s, m, luck, w, cfg), m, Bound(s, thread), thread, luck, w, cfg)
  {
    ThreadRequestIs(s, m, thread, luck, w, cfg);
    if Bound(s, thread).Some? {
      var p := Bound(s, thread).value;
      RoutedBinds(Planned(s, m.id, p), p, thread, m.id, luck, w, cfg);
      RoutedPlace(Planned(s, m.id, p), p, thread, m.id, luck, w, cfg);
    }
  }

  /**
   * Requests of threads. In every run, a request that names a thread is refused if and only if no backend has
   * answered for the thread, announced it, or had it moved there. Otherwise it is in flight only at the backend that
   * did so last, if that runs and its account is healthy, and else at one newly reserved; it is in flight there if
   * the backend stays up and the write works; and its answer is expected from the backend that did so last.
   */
  lemma ThreadRequestsAreServed(
    pool: PoolState, es: seq<MuxEvent>, m: ClientMessage, thread: ThreadId, luck: Luck, w: World, cfg: Config)
    requires AsksOf(States(pool, es, cfg), m, thread) && NewId(States(pool, es, cfg), m.id)
    ensures var s := States(pool, es, cfg);
      ThreadServed(
        s, ClientLine(s, m, luck, w, cfg), m, OwnerOf(pool, es, thread, cfg), thread, luck, w, cfg)
  {
    ThreadsBelong(pool, es, thread, cfg);
    ServedByTable(States(pool, es, cfg), m, thread, luck, w, cfg);
  }

  /** A request about a thread that does not say which is refused too. */
  lemma UnnamedThreadsAreRefused(s: Mux, m: ClientMessage, luck: Luck, w: World, cfg: Config)
    requires IsRequest(s, m) && m.verb.Verb? && ThreadVerb(m.verb.name) && m.thread.None?
    ensures Refused(s, ClientLine(s, m, luck, w, cfg), m.id)
  {
    ThreadVerbs(m.verb.name);
    assert PlanRequest(s.routes, m.verb.name, m.thread, m.id) == (s.routes, PlanError);
    assert s.(routes := s.routes) == s;
  }

  // ---------------------------------------------------------------- new threads

  /** What becomes of a request for a new thread. */
  ghost predicate StartServed(s: Mux, t: Mux, id: Id, luck: Luck, w: World, cfg: Config) {
    && (forall e :: e in t.pending && e.0.1 == IdKey(id) ==>
          NewlyReserved(s, t, e.0.0, luck, w, cfg) && ExpectedFrom(t, id, e.0.0))
    && (AnyEligible(s, luck, w, cfg) && luck.starts && !luck.dies && luck.written ==>
          exists q :: Has(t.pending, MessageKey(q, id)))
  }

  /** The request is in flight at q or nowhere, and only q may answer it. */
  predicate StartedAt(t: Mux, id: Id, q: string) {
    && (forall e :: e in t.pending && e.0.1 == IdKey(id) ==> e.0.0 == q)
    && IdKey(id) in t.routes.pendingRequests && t.routes.pendingRequests[IdKey(id)] == q
  }

  lemma StartPlace(s: Mux, id: Id, luck: Luck, w: World, cfg: Config)
    requires id != IdNull && Fresh(s, id)
    ensures var t, lease := HandleStart(s, id, luck, w, cfg).0, Select(s, None, false, luck, w, cfg).1;
      if lease.None? then Fresh(t, id)
      else
        var q := lease.value.profile;
        && StartedAt(t, id, q) && NewlyReserved(s, t, q, luck, w, cfg)
        && (!luck.dies && luck.written ==> Has(t.pending, MessageKey(q, id)))
  {
    SelectPicks(s, None, false, luck, w, cfg);
    SelectKeepsFresh(s, None, false, luck, w, cfg, id);
    var (s1, lease) := Select(s, None, false, luck, w, cfg);
    if lease.Some? {
      var q := lease.value.profile;
      SendPlace(s1.(routes := Remember(s1.routes, id, q)), q, id, Some(lease.value.id), luck, w, cfg);
    }
  }

  lemma StartedIsServed(s: Mux, t: Mux, id: Id, q: string, luck: Luck, w: World, cfg: Config)
    requires StartedAt(t, id, q) && NewlyReserved(s, t, q, luck, w, cfg)
    requires !luck.dies && luck.written ==> Has(t.pending, MessageKey(q, id))
    ensures StartServed(s, t, id, luck, w, cfg)
  {
  }

  lemma NotStartedIsServed(s: Mux, t: Mux, id: Id, luck: Luck, w: World, cfg: Config)
    requires Fresh(t, id) && !(AnyEligible(s, luck, w, cfg) && luck.starts)
    ensures StartServed(s, t, id, luck, w, cfg)
  {
  }

  lemma StartIsServed(s: Mux, id: Id, luck: Luck, w: World, cfg: Config)
    requires id != IdNull && Fresh(s, id)
    ensures StartServed(s, HandleStart(s, id, luck, w, cfg).0, id, luck, w, cfg)
  {
    var t, lease := HandleStart(s, id, luck, w, cfg).0, Select(s, None, false, luck, w, cfg).1;
    StartPlace(s, id, luck, w, cfg);
    SelectPicks(s, None, false, luck, w, cfg);
    if lease.Some? {
      StartedIsServed(s, t, id, lease.value.profile, luck, w, cfg);
    } else {
      NotStartedIsServed(s, t, id, luck, w, cfg);
    }
  }

  lemma StartIsHandled(s: Mux, m: ClientMessage, luck: Luck, w: World, cfg: Config)
    requires IsRequest(s, m) && m.verb == Verb("thread/start") && m.id != IdNull
    ensures var (t, ok) := HandleStart(s, m.id, luck, w, cfg);
      ClientLine(s, m, luck, w, cfg) == if ok then t else Written(t, Reply(m.id, ErrorContent(BACKEND_FAILED)))
  {
    assert HandleClient(s, m, luck, w, cfg) == HandleStart(s, m.id, luck, w, cfg);
  }

  /**
   * A request for a new thread is in flight only at a backend whose account was reserved in this message and was
   * eligible then, and only that backend may answer it; it is in flight whenever some account is eligible, its
   * backend comes up and the write works.
   */
  lemma StartsAreServed(s: Mux, m: ClientMessage, luck: Luck, w: World, cfg: Config)
    requires IsRequest(s, m) && m.verb == Verb("thread/start") && NewId(s, m.id)
    ensures StartServed(s, ClientLine(s, m, luck, w, cfg), m.id, luck, w, cfg)
  {
    StartIsServed(s, m.id, luck, w, cfg);
    StartIsHandled(s, m, luck, w, cfg);
  }
}
